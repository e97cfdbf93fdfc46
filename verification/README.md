# Proofs about the olli assistant

A model, in Dafny 4.11, of the parts of the assistant that hold its hardest promises, with the proofs of
those promises. `dafny verify dfyconfig.toml` checks everything.

| file | models |
|---|---|
| `WordWrap.dfy`, `HardWrap.dfy`, `TextPanel.dfy` | wrapping and the scrollable text panel of the terminal interface |
| `ScriptLines.dfy`, `ScriptMachine.dfy`, `ScriptRunner.dfy` | `.task` scripts: their lines and forward scans, the machine tick by tick, and the machine as an object updated in place |
| `ScriptTicks.dfy`, `ScriptFlow.dfy`, `ScriptWalk.dfy`, `ScriptStructure.dfy`, `ScriptInputs.dfy`, `ScriptResults.dfy`, `ScriptRuns.dfy` | what script lines and runs do: what each written line does and when a time limit passes, why runs end, which lines they take, that they run structured programs as their structure says, what they send, which tool result a wait takes, and tasks that run tasks |
| `GeminiContents.dfy`, `GeminiSchema.dfy` | turning a history into alternating turns with every call answered, and schemas into the accepted subset |
| `ToolQueues.dfy`, `ToolProtocol.dfy`, `ToolAnswers.dfy`, `ToolWorker.dfy` | many conversations sharing one worker and many remote tools: queues, the protocol over all interleavings, what the answers are, and the objects that carry it out |
| `LineStreams.dfy` | lines out of sockets and events out of a server-sent event stream (section 9.2.6 of the WHATWG HTML standard), however the bytes are cut |
| `Consolidation.dfy`, `SidetrackStages.dfy` | squashing old messages into summaries, and the stage machines that share one helper chat |
| `SpeechText.dfy` | taking emoji out of UTF-8 and escaping text for speech |
| `Common.dfy` | facts about sequences |

Everything outside these parts comes in as an arbitrary input: the clock, the keyboard, sockets, files, what
the model answers, and whether a write or a summary succeeds. Code that updates fields in place is a class
with those fields, and each of its methods is proved to make exactly the step its specification function
gives; the main results are lemmas about those functions over every input or every run. Classes that serve
many owners (`ToolWorker`, `Conversation`) carry the state of the protocol as a ghost argument, which their
methods move along.

Where code and comments or expectations differ, the model follows the code:

- Script markers are recognised in upper and lower case alike (source/stringthings.cpp:394-410), but a sub is
  found only under its exact `[SUB:name]` line (source/tools_task_script.cpp:316-324). A line that starts
  like a sub header but does not end in `]` bounds the scans and is plain text to the dispatcher.
- An `[ASK:nan]` passes the check for a positive number and waits without a limit
  (source/tools_task_script.cpp:76-86).
- A script that is stopped from outside while an `[ASK]` waits keeps its deadline; nothing reads it any more.
- With a consolidation trigger of 0, or with keep 0 and trigger 1, a successful pass does not keep the upper
  levels below keep + trigger; `Consolidation.BoundHoldsExactly` gives the exact condition. The defaults, 30
  and 12, meet it.
- A consolidation pass holds the lock of the history only when it copies and when it writes back
  (source/sidetrack.cpp:576-580 and 760); while it waits for its summaries the reply thread may push
  (source/ai_root.cpp:358-369), and nothing in the gate (source/sidetrack.cpp:565) rules that out.
  `Consolidation.ReplyIsLost` gives such a run and `Consolidation.ConversationIsConserved` the exact condition;
  comparing the size of the history with that of the copy before writing back would detect it.
- A remote connection whose write fails is dropped together with the lines already read from it
  (source/remote_tools.cpp:187-194); `LineStreams.ResultIsLost` gives such a run.
- A list under `items` is not a schema to the conversion and is passed on as it is
  (source/gemini_system.cpp:42-57); `GeminiSchema.SchemaIsAccepted` says when that matters.
- A remote may answer after its call was given up. The late answer is queued and never claimed; the model
  states what a conversation claims, not that a queue holds at most one result for an id.

## Model

| member | source | states |
|---|---|---|
| `WordWrapping.WordWrap` | source/user_io.cpp:100-148 | the loop computes the greedy rows of the paragraph's words; a width that is not positive leaves the paragraph alone |
| `WordWrapping.PlaceToken` | source/user_io.cpp:119-143 | one word is cut into full rows while it is too long, and its rest goes on the current row or a new one |
| `WordWrapping.RowsFit` | source/user_io.cpp:119-143 | no row is wider than a positive width |
| `WordWrapping.WrapKeepsInk` | source/user_io.cpp:100-148 | every non-space character is kept, in order, at every width |
| `WordWrapping.AppendExtends` | source/user_io.cpp:94-148 | appending text to a paragraph never changes a row but the last and never lowers the number of rows |
| `WordWrapping.GreedyIsAhead` | source/user_io.cpp:130-143 | any other in-order breaking has at least as many rows, and on a tie a last row at least as wide |
| `WordWrapping.WrapIsMinimal` | source/user_io.cpp:94-148 | when every word fits, the rows are a breaking of the words and no other breaking has fewer rows |
| `WordWrapping.OneMoreWord` | source/user_io.cpp:100-148 | one more word goes behind the last row if it fits there, and otherwise begins a new row, cut into full rows if it is longer than one; the first word has the rows to itself |
| `HardWrapping.HardWrap` | source/user_io.cpp:162-193 | the loops compute the fixed-width rows of each newline-separated segment |
| `HardWrapping.HardWrapRoundTrip` | source/user_io.cpp:150-193 | the text can be read back from its rows, every character of it |
| `HardWrapping.RowsFitBox` | source/user_io.cpp:182-186 | no row is wider than the box and the last one is never full, so the cursor always has a place |
| `TextPanels.EvictionIsInvisible` | source/user_io.cpp:198-211 | at one width, a panel that evicts as it goes always holds the last rows of everything ever appended |
| `TextPanels.ChunkingIsInvisible` | source/user_io.cpp:257-297 | appending a and then b leaves the same entries and rows as appending a + b, wherever the text is cut, whatever the panel holds and whatever width it had before |
| `TextPanels.AppendWrites` | source/user_io.cpp:257-297 | appended text adds exactly its characters in its own colour, with a new paragraph at each newline, and one in front if the last paragraph has another colour or there is none |
| `TextPanels.LogIsWritten` | source/user_io.cpp:228-297 | after any pieces in any colours the paragraphs hold exactly the characters appended, in order and each in its own colour; a paragraph starts exactly at each newline, at the first piece that is not empty and at each change of colour |
| `TextPanels.PanelShows` | source/user_io.cpp:198-297 | the panel shows the last rows of all, and all rows show exactly the characters appended but for spaces, in order and each in its own colour |
| `TextPanels.EvictionCommutesWithAppend` | source/user_io.cpp:228-297 | appending to what a panel still holds gives the same panel as appending to all it was given |
| `TextPanels.CanonIsStable` | source/user_io.cpp:213-226 | building a panel again from the entries it kept gives the same panel |
| `TextPanels.CanonShape` | source/user_io.cpp:198-226 | the cached rows are the last rows of wrapping the current entries from scratch, the entries' counts add up to them, and only the front entry can be partly evicted |
| `TextPanels.SplitParagraphs` | source/user_io.cpp:243-255 | the text is split at its newlines |
| `TextPanels.TextPanel.EvictToCap` | source/user_io.cpp:198-211 | exactly the excess rows go from the front, from the entries' counts too, and a view that is not pinned stays on its row |
| `TextPanels.TextPanel.Rewrap` | source/user_io.cpp:213-226 | the panel is what wrapping its entries from scratch at the new width gives |
| `TextPanels.TextPanel.MergeIntoLast` | source/user_io.cpp:271-282 | the last entry's rows are replaced by those of its longer text, also when the entry is partly evicted |
| `TextPanels.TextPanel.Append` | source/user_io.cpp:228-297 | the panel is what building it from scratch from its entries and the new text gives, and stays valid |
| `TextPanels.TextPanel.ClampScroll` | source/user_io.cpp:324-338 | the view stays inside the rows, at the bottom when pinned and where it was when that is inside |
| `TextPanels.TextPanel.ScrollBy` | source/user_io.cpp:340-358 | the view moves by the rows asked for, stops at the ends, and is pinned exactly when the bottom is reached or passed |
| `ScriptLines.FindNextBranchMarker` | source/tools_task_script.cpp:221-249 | finds the next marker of the block itself, or the number of lines at a sub edge or the end |
| `ScriptLines.FindEndif` | source/tools_task_script.cpp:252-262 | the restarting scan finds what a one-pass bracket matcher finds |
| `ScriptLines.FindBranchStart` | source/tools_task_script.cpp:266-278 | the restarting scan finds what a one-pass matcher finds: the line after the wanted marker or the [ENDIF] |
| `ScriptLines.FindSub` | source/tools_task_script.cpp:316-324 | finds the first line that is exactly the sub's header |
| `ScriptLines.FindEndsub` | source/tools_task_script.cpp:337-341 | finds the first [ENDSUB] from a line on |
| `ScriptLines.EndifIsTheClosingOne` | source/tools_task_script.cpp:213-262 | for any script, the scan returns the first [ENDIF] that exceeds the [IF] count with no sub edge before it, and fails exactly when there is none |
| `ScriptLines.ClosesOnce` | source/tools_task_script.cpp:252-262 | there is never a second such [ENDIF] |
| `ScriptLines.BranchLandsInBlock` | source/tools_task_script.cpp:264-278 | every branch jump lands later than the [IF], not behind its [ENDIF], right behind the wanted marker, and crosses no sub edge |
| `ScriptLines.MarksAndCommands` | source/tools_task_script.cpp:449-516 | the scans and the dispatcher agree on which lines belong to [IF] blocks and where subs begin and end |
| `ScriptMachine.StepKeepsInv` | source/tools_task_script.cpp:839-903 | every tick keeps every line number inside the script, at most 16 open calls, a waiting machine on the line that began the wait, and an open question inside a closed block |
| `ScriptMachine.DeadlineOnlyWhileAsking` | source/tools_task_script.cpp:384-398 | in every run a time limit is set only while an [ASK] line that reads well and has a limit is waiting, so reading it again on a timeout never fails; a script that is over may keep one |
| `ScriptMachine.WaitStep` | source/tools_task_script.cpp:851-874 | a tick of a wait leaves everything as it is, or ends the wait with the keyboard flag put back |
| `ScriptMachine.KeyboardIsRestored` | source/tools_task_script.cpp:658-678 | an Enter, an answer or a timeout puts the keyboard flag back to what it was before the line that waited |
| `ScriptTicks.LimitIsKept` | source/tools_task_script.cpp:45-112 | from the tick that takes up an [ASK] line written with seconds, the script waits unchanged for so many seconds, however many ticks there are, unless Enter is pressed or someone asks to leave |
| `ScriptTicks.LimitEndsTheWait` | source/tools_task_script.cpp:384-435 | the first tick without Enter that is so many seconds late ends the wait: in the first sub with the name written on the line, to go on behind the line and the question block behind it, or in the script's end if no name is written |
| `ScriptTicks.NoLimitIsKept` | source/tools_task_script.cpp:45-112 | an [ASK] line without seconds waits for as long as it takes |
| `ScriptTicks.EnterAnswers` | source/tools_task_script.cpp:669-767 | Enter ends the wait at any time with what was typed, as it is or quoted, without its trailing newlines, in front of the question that follows |
| `ScriptTicks.WhatLinesDo` | source/tools_task_script.cpp:164-200 | printing, the three switches and calls do what is written on their lines |
| `ScriptTicks.WhatStopsAndWaits` | source/tools_task_script.cpp:440-507 | the lines that end the script, return from a sub, or wait for the user, a result or another task do so by what is written on them |
| `ScriptTicks.OtherWaits` | source/tools.cpp:1130-1210 | a pause ends with Enter, a wait for a result when that is over and another task when it has finished, each on the next line; a task that cannot be run stops the script |
| `ScriptTicks.WhatIsSent` | source/tools_task_script.cpp:136-298 | a plain line is made ready to be sent as it is, a file line as the content of the file, an [IF] as its question, or the script asks for the file or stops |
| `ScriptTicks.SentAndAwaited` | source/tools_task_script.cpp:680-786 | what was made ready is sent, shown if the script echoes, and waited for until the reply is there |
| `ScriptInputs.RunSends` | source/tools_task_script.cpp:680-767 | in every run a plain line is sent as it stands, and the question of an [IF] alone or behind the quoted answer typed at the wait right in front of it, with nothing else around them |
| `ScriptFlow.RankCall` | source/tools_task_script.cpp:350-369 | opening a call lowers the number made of the lines left in each open call |
| `ScriptFlow.RankReturn` | source/tools_task_script.cpp:371-382 | returning lowers it |
| `ScriptFlow.StepProgress` | source/tools_task_script.cpp:839-903 | every tick ends the script, waits where it is, or lowers that number |
| `ScriptFlow.EveryRunIsBounded` | source/tools_task_script.cpp:311-382 | every run of every script of n lines, well formed or not, takes up at most (n + 1) * (n + 2)^16 lines |
| `ScriptWalk.TickDoes` | source/tools_task_script.cpp:839-903 | every tick, no exit being asked for, waits where the machine is, moves to where the line leads, halts for the reason the line halts, or goes from an answered [ASK] straight to the [IF] behind it |
| `ScriptWalk.NextFalls` | source/tools_task_script.cpp:300-382 | wherever a line leads, by a jump, a call, a return or a passed time limit, the number made of the lines left in each open call falls |
| `ScriptWalk.RunConserves` | source/tools_task_script.cpp:839-903 | however waits are spread over ticks, the lines taken up and those ahead stay the walk the replies describe, and so do the errors shown and the one to come |
| `ScriptWalk.FinishedRunIsTheWalk` | source/tools_task_script.cpp:839-903 | a run that follows these replies and has ended took up exactly the lines of the walk they describe, in order, and showed exactly the error the walk ends with |
| `ScriptWalk.EveryRunFollows` | source/tools_task_script.cpp:839-903 | every run that is not left on request follows some replies: for each line that asks something there is one reply that all its ticks agree with |
| `ScriptWalk.EveryFinishedRunIsAWalk` | source/tools_task_script.cpp:839-903 | so every such run that has ended is a walk, whatever its ticks brought |
| `ScriptStructure.SubIsFound` | source/tools_task_script.cpp:316-324 | the search for a sub finds the sub the structure has under that name |
| `ScriptStructure.SkipBlock` | source/tools_task_script.cpp:221-249 | the scans pass over a printed block at every depth |
| `ScriptStructure.BranchesRun` | source/tools_task_script.cpp:266-278 | a jump to a branch runs the first branch of the wanted kind and goes on behind the block |
| `ScriptStructure.BlockRuns` | source/tools_task_script.cpp:287-307 | a printed block, nested blocks and calls included, shows what the tree-walking meaning shows and goes on where it says |
| `ScriptStructure.LateRuns` | source/tools_task_script.cpp:384-435 | an [ASK] whose limit passes ends the script or runs its sub and goes on behind the question about its answer |
| `ScriptStructure.MachineRunsTheStructure` | source/tools_task_script.cpp:221-435 | for every structured program and every stream of replies (answers, passed limits, outcomes of tasks), the line-index walk executes exactly the lines the tree-walking meaning executes, in order, and ends for the same reason, error stops included |
| `ScriptStructure.FinishedRunIsTheStructure` | source/tools_task_script.cpp:788-903 | the same for the machine with its waits, in every run that follows these replies |
| `ScriptStructure.EveryFinishedRunIsTheStructure` | source/tools_task_script.cpp:839-903 | every finished run of a structured program that is not left on request executed the program as its structure says, under the replies its ticks brought |
| `ScriptRuns.TurnKeepsGood` | source/tools.cpp:1170-1208 | [RUN] never nests more than four tasks, whatever the tasks are |
| `ScriptRuns.TurnSpends` | source/tools.cpp:1170-1208 | every tick of nested tasks spends at least what it takes up from what they have left between them |
| `ScriptRuns.EveryNestOfRunsIsBounded` | source/tools.cpp:1032-1035 | with tasks of at most n lines and R = (n + 1) * (n + 2)^16, a run takes up at most R * (1 + R * (1 + R * (1 + R))) lines in all nested tasks together |
| `ScriptRuns.NamedTaskRuns` | source/tools.cpp:1170-1208 | a [RUN:name] line starts the task of the name written on it from its first line; without such a task, or four deep, the script stops with the error for that |
| `ScriptResults.ResultKeeper.ResolveWait` | source/tools.cpp:1130-1169 | one tick of a wait takes the first result held beyond the baseline, gives up after 30 seconds, or goes on |
| `ScriptResults.WaitTakesItsOwn` | source/tools.cpp:1107-1148 | a wait that ends with a result has taken the oldest one that arrived after its command, and the backlog of earlier commands is untouched |
| `ScriptResults.WaitEnds` | source/tools.cpp:1130-1168 | however many ticks a wait has lasted and whatever has arrived, a tick that leaves the script waiting came less than 30 seconds after the wait's first tick |
| `ScriptResults.WaitIsKept` | source/tools.cpp:1130-1168 | a wait that ends without a result ends 30 seconds after its first tick or later |
| `ScriptResults.NoResultIsLost` | source/tools.cpp:1045-1096 | in every run of every script each result that arrived was taken by one wait or is still held to be told at the end, never both and never twice; the held ones are in order |
| `ScriptRunners.ScriptRunner.CallSub` | source/tools_task_script.cpp:350-369 | a call is opened, or the script stops for a missing sub or too many calls, in that order |
| `ScriptRunners.ScriptRunner.CommandAskTimedOut` | source/tools_task_script.cpp:384-435 | a wait whose limit has passed ends the script or calls its sub, to come back behind the whole [IF] block if one follows |
| `ScriptRunners.ScriptRunner.AdvanceScriptState` | source/tools_task_script.cpp:839-903 | one tick of the machine is the step of its state |
| `ScriptRunners.ScriptRunner.Turn` | source/tools.cpp:1045-1228 | one turn of the driving loop is one step, and keeps the invariant |
| `ScriptRunners.ScriptRunner.RunScript` | source/tools.cpp:1045-1237 | the loop ends in the state of the run over all its ticks |
| `ScriptRunners.TrimmedMeans` | source/tools_task_script.cpp:733-737 | exactly the newlines at the end of what was typed are taken off |
| `GeminiContents.IndexResults` | source/gemini_system.cpp:145-148 | the map holds the first result of every call id and nothing else |
| `GeminiContents.AnswerCalls` | source/gemini_system.cpp:180-226 | a reply's parts and the answers to its calls are those of the first later results not taken before, and the taken ones are recorded |
| `GeminiContents.BuildGeminiContents` | source/gemini_system.cpp:140-240 | the loops build the turns and the system prompt of the history |
| `GeminiContents.CallsAreAnsweredAtOnce` | source/gemini_system.cpp:127-240 | every history yields turns that start with the user and alternate; a model turn with calls is followed by a user turn that begins with exactly their responses, same order, names and ids; no response is anywhere else |
| `GeminiContents.NothingIsLostOrMoved` | source/gemini_system.cpp:151-179 | the turns read in order are what the messages contribute in history order, with only the opening note added |
| `GeminiContents.WhatIsSent` | source/gemini_system.cpp:140-240 | the turns read in order are exactly the visible texts of assistant, user and unprotected system messages as the model's and the user's, the named calls with arguments and signatures and then their answers behind the assistant's text, and the results that answer no earlier call; one note stands in front if the user does not begin |
| `GeminiContents.GroupingIsUnique` | source/gemini_system.cpp:151-161 | there is only one way to group pieces into alternating turns |
| `GeminiContents.TurnsAreDetermined` | source/gemini_system.cpp:151-240 | a list of turns is what a history becomes exactly if it alternates and, read in order, is what the messages contribute |
| `GeminiContents.AnswersExactly` | source/gemini_system.cpp:199-200 | a call is answered by a result exactly if it is the first with its id, comes later, and no earlier call with a name has the id |
| `GeminiContents.ResponseOfCall` | source/gemini_system.cpp:213-223 | each call with a name has exactly one response: its result's text or the note that there is none yet |
| `GeminiContents.PartOfCall` | source/gemini_system.cpp:185-211 | each call with a name has its own part; the placeholder signature stands on the first of a message none of whose calls is signed |
| `GeminiContents.UntakenIsText` | source/gemini_system.cpp:227-229 | a result that answers no call is kept as text, even a blank one |
| `GeminiContents.EveryResultIsToldOnce` | source/gemini_system.cpp:145-229 | of all the pieces in the turns exactly one tells the result of a tool message, as the response to a call with its id or as text; a response that tells no result is the note that there is none yet |
| `GeminiContents.SystemTextIsJoined` | source/gemini_system.cpp:172-175 | the system prompt is the visible protected system messages with a blank line between two |
| `GeminiSchema.ConvertSchema` | source/gemini_system.cpp:40-80 | the recursion and its loops compute the schema, visiting keys in sorted order |
| `GeminiSchema.SchemaIsAccepted` | source/gemini_system.cpp:35-80 | what comes out has the accepted shape at every level, also of schemas in a list, exactly if no list that is reached holds a schema that is not accepted as it stands |
| `GeminiSchema.SchemaIsSettled` | source/gemini_system.cpp:35-80 | outside lists every nested schema of what comes out uses only accepted keys, a single type and string enums, and requires only properties it has, whatever goes in |
| `GeminiSchema.ListIsNotConverted` | source/gemini_system.cpp:42-57 | a list of schemas under `items` is passed on as it came, here with a key that is refused |
| `GeminiSchema.SchemaIsIdempotent` | source/gemini_system.cpp:40-80 | converting twice is converting once |
| `GeminiSchema.LeftAlone` | source/gemini_system.cpp:40-80 | a schema is left as it is exactly if it has that shape outside lists |
| `GeminiSchema.PropertiesAreKept` | source/gemini_system.cpp:52-57 | no property is lost, and each is converted in its place; so is what `items` holds |
| `GeminiSchema.WhatIsKept` | source/gemini_system.cpp:46-71 | accepted plain keys stay as they are, enum values become strings one by one, a list of types becomes its first real one and nullable, and no key that is not accepted is left |
| `GeminiSchema.RequiredAreKept` | source/gemini_system.cpp:73-79 | a list of required names keeps exactly those that are properties, and goes if none is left |
| `GeminiSchema.KnownKeeps` | source/gemini_system.cpp:73-78 | a required name is dropped exactly if it is no property |
| `LineStreams.ExtractLine` | source/remote_tools.cpp:47-56 | the first complete line is cut off, without a carriage return, or nothing happens |
| `LineStreams.LinesOfConcat` | source/remote_tools.cpp:47-56 | the lines of a stream do not depend on where it is split |
| `LineStreams.NothingIsLost` | source/remote_tools.cpp:47-56 | lines and tail together are the stream without the carriage returns that stand before newlines, and the stream byte for byte exactly if there are none of these |
| `LineStreams.Listener.PollOnce` | source/remote_tools.cpp:114-175 | the listener takes bytes up to the first newline or 4096, and is left with an empty buffer when it hands the connection over |
| `LineStreams.Reader.PollOnce` | source/remote_tools.cpp:546-566 | one poll gives at most one line, from the buffer before the socket |
| `LineStreams.EveryLineOnceInOrder` | source/remote_tools.cpp:97-194 | however the bytes arrive, the lines delivered are the first ones of the newline-split of the stream, in order, across the handoff; while the connection lives the others wait in the buffer and the kernel; once it has ended all were delivered exactly if it was not given up (a failed write, silence, a bad registration) while a complete line was waiting |
| `LineStreams.ResultIsLost` | source/remote_tools.cpp:582-588 | a result that arrives with a ping is not delivered when the pong cannot be written |
| `LineStreams.EventStream.Write` | source/gemini_system.cpp:269-284 | after every chunk the events are the payloads of the stream so far and the buffer is its unfinished line |
| `LineStreams.PayloadMeans` | source/gemini_system.cpp:275-278 | a data line gives what is behind its spaces, unless that is nothing or begins with the end mark; no other line gives anything |
| `LineStreams.ReadStream` | source/gemini_system.cpp:269-284 | a stream cut into any chunks gives the events of the uncut stream |
| `LineStreams.EventsRoundTrip` | source/gemini_system.cpp:269-284 | events written with either line end are read as exactly these events, in order |
| `ToolQueues.PollMeans` | source/remote_tools.cpp:542-682 | a poll can only pass on the answer the remote was asked for and then hand a free remote its oldest call |
| `ToolQueues.AliveIsHeardFrom` | source/remote_tools.cpp:634-649 | a remote alive after a poll was heard from in the last 15 seconds and spoken to in the last 5 |
| `ToolQueues.UnansweredMeans` | source/tool_worker.cpp:93-100 | a deadline goes exactly if its id has a waiting result |
| `ToolQueues.RunningMeans` | source/tool_worker.cpp:107-131 | every deadline either runs on or is given up with an error result |
| `ToolQueues.DropMeans` | source/tool_worker.cpp:140-152 | a mark goes with the first result for its id, and ids without a mark keep their results |
| `ToolProtocol.StepKeepsInv` | source/tool_worker.cpp:60-179 | every step of every conversation, the worker and its remotes keeps all the properties below |
| `ToolProtocol.NothingIsForgotten` | source/tool_worker.cpp:90-131 | in every run, an id a live conversation waits for has a deadline or a waiting result |
| `ToolProtocol.ClaimsAreOwn` | source/ai_root.cpp:880-901 | in every run, an id is claimed at most once, only by the conversation that put it, and with an answer to it |
| `ToolProtocol.NoTimeoutAfterAnswer` | source/tool_worker.cpp:90-131 | in every run, no timeout error follows a genuine answer to the same id |
| `ToolProtocol.CallsAreSentOnceInOrder` | source/remote_tools.cpp:651-681 | in every run, no call is written twice, to one remote or to two; each remote gets its calls oldest first, and the next only when the one before is answered |
| `ToolProtocol.OldCallsAreAnswered` | source/tool_worker.cpp:102-152 | a tick at least 300 seconds after the put leaves the id with a produced result, waiting if anyone waits, and no mark behind |
| `ToolAnswers.ClaimIsWhatArrived` | source/remote_tools.cpp:584-600 | in every run a genuine answer that is claimed is word for word the first result for its id that came from the one remote its call was written to, after it was written; every other claimed answer is the timeout error |
| `ToolAnswers.GenuineIsAccepted` | source/remote_tools.cpp:584-600 | in every run the genuine answers are exactly the results that came from a remote at their call, in the order they came |
| `ToolAnswers.EachGetsItsOwn` | source/remote_tools.cpp:651-681 | a call is written only to a remote with a tool of its name, oldest first, and a living remote that is free after its poll has nothing to do |
| `ToolAnswers.GivenUpOnlyFor` | source/remote_tools.cpp:546-681 | a remote is given up only for an ended connection, a failed write or 15 seconds of silence |
| `ToolAnswers.NoEarlyTimeout` | source/tool_worker.cpp:107-131 | in every run a timeout error is produced only 300 seconds after its call was put, or later |
| `ToolWorkers.RemoteTool.PollCommunications` | source/remote_tools.cpp:542-682 | the remote's fields, both queues and what was written are those of one poll |
| `ToolWorkers.ToolWorker.PutPendingCall` | source/tool_worker.cpp:208-214 | the call and its deadline are queued |
| `ToolWorkers.ToolWorker.GetPendingResult` | source/tool_worker.cpp:216-242 | the oldest result for the id is taken out, and only it |
| `ToolWorkers.ToolWorker.AbandonCall` | source/tool_worker.cpp:244-249 | the id is marked |
| `ToolWorkers.ToolWorker.SweepTimeouts` | source/tool_worker.cpp:107-131 | overdue calls are taken back and answered with an error, in order |
| `ToolWorkers.ToolWorker.DropAbandoned` | source/tool_worker.cpp:133-152 | marked results are dropped, one per mark |
| `ToolWorkers.ToolWorker.Tick` | source/tool_worker.cpp:60-179 | one turn of the thread is one tick of the protocol |
| `ToolWorkers.Conversation.Dispatch` | source/tools.cpp:1398-1403 | the id is remembered and the call put |
| `ToolWorkers.Conversation.ClaimResults` | source/ai_root.cpp:880-901 | what has been answered is claimed, in order, and the rest is still waited for |
| `ToolWorkers.Conversation.End` | source/ai_root.cpp:837-848 | every id still waited for is given up |
| `Consolidation.Chat.BeginPass` | source/sidetrack.cpp:570-580 | a pass copies the history and lets it go |
| `Consolidation.Chat.Push` | source/ai_root.cpp:358-369 | a message is pushed at the end, whether a pass is under way or not |
| `Consolidation.Chat.FinishPass` | source/sidetrack.cpp:754-761 | what the pass made of its copy replaces the history, whatever has been pushed meanwhile |
| `Consolidation.Consolidate` | source/sidetrack.cpp:624-758 | the loops sort, squash and flatten the copy as one pass says |
| `Consolidation.SquashOne` | source/sidetrack.cpp:657-749 | one level is squashed only beyond keep + trigger and only when its summary succeeds |
| `Consolidation.SquashEndsOnReply` | source/sidetrack.cpp:681-686 | raw conversation is squashed up to the last finished reply in the overflow |
| `Consolidation.PassSquashes` | source/sidetrack.cpp:657-758 | a pass takes from each level, as it stands when the pass reaches it, the longest start that leaves the newest `keep`, has at least `trigger` messages and, in raw conversation, ends on a reply, exactly if there is one and its summary succeeds; the level above gains one message with that summary; the newest `keep` messages of every level end it as before |
| `Consolidation.SortingKeepsOrder` | source/sidetrack.cpp:624-638 | sorting a history into levels and flattening it reorders nothing when its levels descend |
| `Consolidation.PassConserves` | source/sidetrack.cpp:624-758 | a pass keeps the protected messages of its copy and what all others stand for, in order, whether its summaries succeed or fail |
| `Consolidation.RunKeeps` | source/sidetrack.cpp:576-761 | after every run the history stands for exactly what survived it, in order: a write-back undoes every push since its copy was made, and nothing else is ever lost |
| `Consolidation.ConversationIsConserved` | source/sidetrack.cpp:576-761 | after any run of messages, copies and write-backs the history stands for exactly what was said, in order, nothing skipped or twice, with all protected messages, if and only if at each write-back the history was as long as its copy |
| `Consolidation.ReplyIsLost` | source/sidetrack.cpp:576-760 | with the default settings a reply that lands between the copy and the write-back is gone |
| `Consolidation.PassIsBounded` | source/sidetrack.cpp:657-749 | a fully successful pass leaves every level above 0 below keep + trigger messages |
| `Consolidation.BoundHoldsExactly` | source/sidetrack.cpp:649-685 | that bound holds of every history if and only if trigger >= 1 and keep + trigger >= 2 |
| `SidetrackStages.Sidetrack.RunSecondGuess` | source/sidetrack.cpp:227-502 | one tick of the review moves its stages and commits its messages as one step says |
| `SidetrackStages.Sidetrack.RunConsolidation` | source/sidetrack.cpp:540-569 | one tick of the consolidation's stages |
| `SidetrackStages.Sidetrack.NoticeNewReply` | source/sidetrack.cpp:189-215 | a user message resets the chain; a reply restarts a finished review at most ten times |
| `SidetrackStages.Sidetrack.Tick` | source/sidetrack.cpp:834-871 | the routines run in their order and the history size is remembered last |
| `SidetrackStages.NeverResetInReview` | source/sidetrack.cpp:549-568 | in every run, a consolidation that is about to run finds the review at stage 0, 1 or 100 |
| `SidetrackStages.ChainIsBounded` | source/sidetrack.cpp:182-214 | as long as no user message is seen, the review restarts at most ten and begins at most eleven times |
| `SidetrackStages.GoodReplyIsLeft` | source/sidetrack.cpp:327-402 | a review that finds nothing to correct, or is cut off, ends there and says nothing unless a tool was used |
| `SidetrackStages.BadReplyIsCorrected` | source/sidetrack.cpp:327-502 | a review that finds something to correct makes a second call and commits what comes of it |
| `SidetrackStages.ConsolidatesOnlyWhenDue` | source/sidetrack.cpp:540-569 | the consolidation is made ready exactly in a tick that finds it waiting, due and the review at rest, and runs exactly in the next one, the number of messages unchanged |
| `SidetrackStages.DueConsolidationRuns` | source/sidetrack.cpp:540-569 | a consolidation that was reset has run after three ticks without activity, if it is due and the review at rest in the second |
| `SidetrackStages.ClearsOnlyWhenDue` | source/sidetrack.cpp:776-801 | the context is cleared by its own routine exactly in the tick after one that found it waiting and due |
| `SidetrackStages.ActionsAreSaid` | source/sidetrack.cpp:468-485 | a review that used tools comes to rest with a message in the history |
| `SidetrackStages.ActivityPostpones` | source/sidetrack.cpp:838-847 | in a tick before which the number of messages has changed since the last one ended, nothing is consolidated or cleared, and both waits begin anew |
| `SpeechText.StripEmoji` | source/stringthings.cpp:55-79 | the walk over the bytes keeps or drops each sequence as the code point it spells says, and keeps stray bytes |
| `SpeechText.EncodingIsRead` | source/stringthings.cpp:62-74 | the walk reads back every encoded scalar value (section 3 of RFC 3629) |
| `SpeechText.StripIsFilter` | source/stringthings.cpp:41-79 | stripping the UTF-8 bytes of any text gives the UTF-8 bytes of the text without its emoji |
| `SpeechText.TextIsRead` | source/stringthings.cpp:41-53 | text without the code points of emoji comes out as it went in, and text of nothing else comes out empty |
| `SpeechText.SsmlEscape` | source/stringthings.cpp:104-116 | the loop replaces the three characters by their entities |
| `SpeechText.EscapeRoundTrip` | source/stringthings.cpp:102-116 | escaped text is read as the text it was and holds no character that opens or closes a tag |

## Left out

- Sockets, HTTP, the terminal, threads and locks: each step of a model is what the code does in one piece under its mutex, except that a tick of `SidetrackStages` is one step although the reply thread may push a message inside it; what the routines of a tick find and leave of the history is arbitrary there.
- Clearing the context: it forgets all but the protected messages on purpose and is no event of `Consolidation`.
- `ToolWorkers.Conversation.ClaimResults`: always gets the lock; a claim that misses because the lock is busy is a step that does not happen.
- `ToolWorkers.RemoteTool.PollCommunications`: does not queue the events a remote sends; they answer no call.
- `ToolWorkers.ToolWorker.Tick`: does not rebuild the list of tool definitions, and a remote that cannot be sent its identity does not join.
- `ScriptRunners.ScriptRunner.Turn`: what the rest of the loop does in a turn (draining results, resolving a wait, running a nested task) comes in as inputs of the tick; `ScriptResults` and `ScriptRuns` model these parts on their own.
- `ScriptRunners.ScriptRunner.AdvanceScriptState`: leaves out the history edits around an `[IF]` question, putting the input in the send field and switching streaming off.
- Uniqueness of call ids: `ToolProtocol` assumes no id is put twice.
- Telling held results at the end of a script, and events, which no wait ever takes.
- The report at the end of a script, file writes of `[FILE_APPEND]`, and the wording of notices.
- Looking a task up by name for `[RUN:name]`: any library of tasks, with exact names decided by the library; a task the model itself starts from inside a script is not nested here.
- Scripts that are not the printed form of a structured program (a block without its end, a sub inside a sub): the invariants, the bounds and the scan lemmas cover them, `ScriptStructure` does not.
- The number conversion of `[ASK:seconds]`: any function from text to a number, no number, or not readable; adding seconds to the clock does not overflow.
- `NCURSES_TEXT_PANEL::rebuild_from`: it fills a panel with clipped one-row lines that are never appended to or wrapped again.
- Where a scrolled view lands when the only entry is partly evicted and then merged: the row numbers shift by the rows that come back.
- Parsing of JSON messages: a remote's line arrives as a ping, a result, or something else, and the text of a result stands for all that its message says, a special instruction included; events and registered tool definitions are not kept.
- `GeminiSchema.ConvertSchema`: visits keys in an order given from outside that has "nullable" before "type", as a sorted map does; converting an enum value to text is any function.
- Streaming replies that are not status 200, and aborting a stream.
- Negative consolidation settings, and what the helper chat is shown for a summary.
- `SIDETRACK_CLASS::force_consolidation`: a debugging hook that skips the wait for the review to be idle.
- `tts_filter`, `tts_hold_point` and the rest of the speech clean-up, audio, web server, document viewer and start-up: heuristics or plumbing.
