# Deep agent: a verified model

This project models a Go agent framework: an agent run that alternates model calls and tool calls, a gate at
which a human approves calls, sub-agents, checkpoints, a hash-chained log of approvals, an event stream, tool
schemas and their validator, messages for a model provider, and a command sandbox. It proves what these promise
over all inputs, all answers of the outside world, and whole sequences of runs.

## How it is built

- `Values`, `Text`: Go values of type `any` (a float64 is its 64 bits), and string operations.
- `JsonText`, `JsonWriter`: JSON, character by character: a reader with a stack of open lists and objects, and a
  writer with all escapes. What is written is proved to be read back.
- `Audit`: the log of approvals. `Accepted` says what the verifier is for; the verifier and the writer are
  methods and classes proved against it.
- `Graphs` (`Graph.dfy`): a run. Everything that answers a run (model, approver, tools, disk, clock) is a `Script`;
  a tool call may start a sub-agent, which has a script of its own, so runs nest to any finite depth. `RunSpec` is
  the run as a function; class `Graph` is the run as code with loops that updates the store and the log. A run
  yields its events, its counters, and its actions (log calls, questions, tool calls, checkpoints) in order.
- `Traces`, `Nesting`, `Lifetime`, `SharedThread`, `EndToEnd`: what holds of one run, of a run with all its sub-agents,
  of the whole life of a thread, of the one thread that all sub-agents share, and of runs together with the log
  file. `Streaming`: runs behind a bounded channel.
- `Slugs`, `Subagents`: names for the results of sub-agents and merging them. `Stores`: path-keyed stores.
- `Validation`, `Schema`, `ToolMessages`, `Sandbox`: the remaining pairs of functions that have to agree.

Libraries enter as parameters with stated properties: `Audit.Codec` (SHA-256 of section 6.2 of FIPS 180-4 and
one-line JSON: `Sound`, and `CollisionFree` where it is needed), `Values.Json` (`Faithful`: parsing undoes printing, but for integers),
`Slugs.Unicode` (the character tables). `Codes` and `Slugs.AsciiIsSound` prove that there are such libraries; the
JSON library there is `JsonWriter` with `JsonText`. Timestamps are integers, and 0 is Go's zero time.

Results where the code does less than one might expect:

- The strict verifier rejects what the code logs for sub-agents, because they run on the empty thread ID. With a tool
  that starts sub-agents, it takes whatever named runs leave behind exactly if no named tool needs approval
  (`EndToEnd.StrictExactlyWithoutApprovals`); for given runs, exactly if no entry that was written lacks a name
  (`EndToEnd.RunsAgainstStrictVerifier`).
- All sub-agents share one checkpoint. Those that runs on named threads start get together at most 20 answers from the
  model, for good (`SharedThread.SubAgentsShareBudget`), after which every one fails
  (`SharedThread.SpentSubAgentsFail`), and a later one carries on the history of the first, with its prompt
  (`SharedThread.SubAgentInheritsHistory`). Sub-agents of sub-agents are not counted, since the outer one saves over
  their checkpoint: the total is what the checkpoint gains exactly if they get no answer
  (`SharedThread.TotalAgainstCheckpoint`); `SharedThread.NestedAnswersAreNotCounted` has 21 answers with a count of 1.
- An answer whose checkpoint could not be written, with none written behind it in its run, does not count towards the
  limit of 20 (`Lifetime.AnswersKeptOrLost`).
- Integers in the data of a tool result go through a float64 on their way to the model: the text of the data is
  recovered exactly if every integer in it is printed again with its own digits (`ToolMessages.DataIsRecovered`);
  2^53 + 1 is not (`ToolMessages.LargeIntegerIsLost`).
- The `required` list of generated schemas is not enforced (`Schema.RequiredIsNotEnforced`, with an instance in
  `Schema.MissingPathIsAccepted`). A field with options in its tag, such as `a,omitempty`, is described under the
  whole tag, so that its value is never checked (`Schema.ReplacedFieldIsChecked`, `Schema.OptionHidesField`).
- The reported tool error rate of a run is at most 1 exactly if the approver held back all its registered calls, or no
  more of them than succeeded (`Traces.RunErrorRate`); `Traces.ErrorRateOfTwo` has a run that reports 2.
- The text written by hand for a result that cannot be printed does not escape the tool name. It is taken for a tool
  result exactly if that name brings along a call ID and the error text can stand in a JSON string
  (`ToolMessages.FallbackIsRecognised`); names without quotation marks never do, others do
  (`ToolMessages.NameWithCallIdIsRecognised`).
- A failed first load of the log is not retried and breaks the chain (`Audit.FailedLoadBreaksChain`), and so does a
  blank line at the end of the file (`Audit.FreshWriterContinues`, `Audit.BlankLineBreaksChain`).
- A consumer that stops reading a stream leaves the producer waiting forever exactly if more than 32 events are not
  received (`Streaming.AbandonedProducerEnds`); a turn of sixteen calls is enough (`Streaming.LongTurnStallsProducer`).
- An image name that begins with a dash is read as an option (`Sandbox.ArgumentsReadBack`), and passes all checks when
  no allowlist is asked for (`Sandbox.DashedImageIsLaunched`).
- A chain of validators panics exactly if it comes to an array check that is given a null (`Validation.ChainPanics`).
- The repository's own README speaks of up to 25 iterations; the code allows 20, and for the whole life of a thread,
  not for each run. The model follows the code.

## Model

| member | source | states |
|---|---|---|
| Text.DecimalDenotes | agent/subagent.go:87 | the decimal text of a number denotes that number and has no leading zero |
| Text.DecimalInjective | agent/subagent.go:87 | different numbers have different decimal texts |
| Text.TrimParts | agent/subagent.go:98 | trimming takes off only droppable characters at the ends, and leaves none there |
| Text.TrimBetween | agent/subagent.go:117 | a text with nothing to drop at its ends is what trimming leaves of it between any droppable ends |
| Text.FieldsOfText | tools/builtin/sandbox.go:163 | the fields of a command are free of spaces, not empty, and together the command without its spaces; there are none exactly if the command is blank |
| Text.FieldsDetermined | tools/builtin/sandbox.go:163 | a text without spaces is one field, and a space parts the fields before it from those behind it: the two rules that fix the fields of every text |
| JsonText.NextMember | llms/anthropic/anthropic.go:177 | a quote, a comma and a new member name are read as such exactly inside the string value of a member, whatever was read before |
| JsonText.LastMember | llms/anthropic/anthropic.go:177 | a quote and a brace end a text exactly inside the string value of a member of the outermost object |
| JsonText.BodyClosed | llms/anthropic/anthropic.go:177 | a text without quotes leaves the reader inside the string exactly if its characters may stand there and its escapes are complete |
| JsonText.ReadIsJson | llms/anthropic/anthropic.go:176-179 | whatever the text, only JSON values are read from it |
| JsonWriter.UnquoteQuote | agent/graph.go:427 | every string is recovered from its escaped form |
| JsonWriter.ValueIsReadBack | agent/graph.go:426-432 | whatever is open around it, reading what was written for a value puts that value there, through nested lists and objects, with its integers as the float64 read from their digits |
| JsonWriter.LibraryIsFaithful | agent/graph.go:426-432 | every value that is printed is read back from its text but for its integers, and every JSON value as it was, given exact number formatting |
| JsonWriter.ReprintedAlike | llms/anthropic/anthropic.go:177-189 | a value that is printed, read and printed again gives the same text exactly if each of its integers, at any depth, is printed again with its own digits |
| Codes.FaithfulJsonExists | agent/graph.go:426-432 | there is a JSON library that prints and parses faithfully, yields only JSON values, and reads every text as the reader does |
| Audit.AcceptedSnoc | agent/hitl_audit.go:170-208 | a file with one more line is accepted exactly if it was accepted before and the line is blank or a linked entry (strict: complete and not earlier) |
| Audit.PrefixAccepted | agent/hitl_audit.go:159-213 | every prefix of an accepted file is accepted |
| Audit.ChainUnique | agent/hitl_audit.go:116-149 | with a hash free of collisions among payloads that a log can hold, two chains of such entries with the same last hash are the same chain |
| Audit.LastHashDeterminesFile | agent/hitl_audit.go:159-213 | two accepted files with the same last hash hold the same entries |
| Audit.TamperingIsRejected | agent/hitl_audit.go:180-200 | replacing everything before a kept last entry is accepted exactly if the entries stay what they were |
| Audit.ValidateStrict | agent/hitl_audit.go:215-248 | the strict checks pass exactly on entries with an event, a set time not before the previous one, and, for requests and decisions, tool, call, thread, request and a positive iteration, and a decision where there must be one |
| Audit.VerifyFileChain | agent/hitl_audit.go:159-213 | the loop returns no error exactly on accepted files; otherwise it names the first line at which acceptance ends, and whether it is no entry, names another hash before it, has a wrong hash itself, or is not strict |
| Audit.FileHITLAuditLogger.LoadLastHash | agent/hitl_audit.go:83-114 | takes over the hash on the last physical line, once; when it fails it is not tried again |
| Audit.FileHITLAuditLogger.LogHITLEvent | agent/hitl_audit.go:51-81 | the new file, hash and load flag after any answer of the disk, and whether the entry was written |
| Audit.RestartAgreement | agent/hitl_audit.go:98-113 | a fresh writer loads the hash with which the verifier ends, exactly if no blank line follows the entries |
| Audit.LogKeepsInStep | agent/hitl_audit.go:51-81 | a log call, written or failed, keeps the file accepted and the writer on its last hash; the file gains the sealed entry or nothing |
| Audit.SealedLineFits | agent/hitl_audit.go:59-79 | an entry sealed with the last hash of an accepted file can be appended to it |
| Audit.HistoryAccepted | agent/hitl_audit.go:51-114 | any interleaving of log calls and restarts keeps the file accepted and the writer in step, if every writer can load the file it comes to |
| Audit.FreshWriterContinues | agent/hitl_audit.go:98-107 | the next entry of a fresh writer keeps any accepted file accepted exactly if no blank line follows the entries |
| Audit.BlankLineBreaksChain | agent/hitl_audit.go:98-107 | for instance, an accepted file of one entry and a blank line is broken by the next entry |
| Audit.FailedLoadBreaksChain | agent/hitl_audit.go:84-93 | after a failed first load the next entry starts a new chain, accepted exactly if the file held no entry |
| Graphs.NewRequestId | agent/graph.go:434-440 | a request ID begins with the thread ID, or with "run" when there is none |
| Graphs.RequestIdsDiffer | agent/graph.go:434-440 | requests of a thread at different times have different IDs |
| Graphs.ToolDeclaresSchema | llms/schema.go:74-107 | arguments are checked against the schema that the tool declares: a ready one as it is, the fields of a struct, and otherwise against nothing |
| Graphs.Graph.LogHITLAudit | agent/graph.go:382-387 | the log gains what the writer makes of the entry; nothing happens without a writer, and failures are dropped |
| Graphs.Graph.PassGate | agent/graph.go:210-296 | request event, request entry, question, decision event, decision entry, in this order, on the shared log |
| Graphs.Graph.MakeCall | agent/graph.go:315 | what a call does; a sub-agent runs on the same checkpoints and the same log, on the empty thread ID |
| Graphs.Graph.Execute | agent/graph.go:298-356 | a call is made only if the validator accepts its arguments; result, counters and memory entry follow |
| Graphs.Graph.HandleCall | agent/graph.go:194-357 | unregistered calls do nothing, rejected ones are not executed, the others are |
| Graphs.Graph.RunTurn | agent/graph.go:194-357 | the loop over the calls of a turn has the effect of the calls in order |
| Graphs.Graph.TakeTurn | agent/graph.go:123-157 | one iteration with tool calls or no content: events, messages, counters and the checkpoint of the state after it |
| Graphs.Graph.GiveAnswer | agent/graph.go:160-180 | the final answer, its checkpoint and its events |
| Graphs.Graph.Loop | agent/graph.go:122-366 | the loop with its three exits (answer, failing model, spent budget) does what the recursive account of it says, to state, store and log |
| Graphs.Graph.Run | agent/graph.go:62-367 | a run from load to error event: outcome, events, counters, store and log are those of the specification |
| Traces.EventsFollowGrammar | agent/graph.go:70-366 | the events of every run drive a recogniser from its start to its end: iterations numbered in order up to 20, calls of registered tools, gates answered before results, the last message as final answer, the error that fits |
| Traces.OneTerminalEvent | agent/graph.go:94-102 | in such a trace exactly the last event is a final answer or an error |
| Traces.CallEventList | agent/graph.go:200-341 | which events, with all their contents, and which counts one call adds: none, a rejection after the gate, or a result for the same call that says no more than whether it succeeded |
| Traces.SummaryMatchesEvents | agent/graph.go:78-93 | in every run iteration, model calls, model errors, tool calls and tool errors of the summary equal what the events show; announced calls are executed or rejected |
| Traces.OutcomeOfRun | agent/graph.go:160-180 | an answer is that of the last assistant message, and with the whole history what the last action saves; every outcome is of the thread and the request of the run |
| Traces.ErrorCodeTellsWhy | agent/types.go:37-45 | the code and the text of the error that ends a run say whether its checkpoint could not be loaded, the model failed, or the iterations were used up |
| Traces.ErrorRateBound | agent/graph.go:71-74 | the reported rate is at most 1 exactly if nothing was executed or rejections do not outnumber successful calls |
| Traces.TurnCounts | agent/graph.go:194-357 | a turn counts as executed its registered calls less those held back, and as errors those less the ones that succeed |
| Traces.RunErrorRate | agent/graph.go:71-74 | the rate of a run is at most 1 exactly if the approver held back all its registered calls, or no more than succeeded |
| Traces.ErrorRateOfTwo | agent/graph.go:71-74 | a run with one call that succeeds and two that are held back reports a rate of 2 |
| Traces.CallAnswered | agent/graph.go:264-353 | a registered call gets exactly one result, under its name and ID: the refusal of the approver if the gate held it back, the error of the validator if its arguments do not fit, and otherwise the data or the error that the tool gave; others get none |
| Traces.SubAgentAnswered | agent/subagent.go:25-60 | a call with a description runs a sub-agent with that text as prompt and as only message, on the empty thread; its actions are those of that run, and its result is what merging gives, or the text of the error that ended the sub-agent |
| Traces.SubAgentNeedsDescription | agent/subagent.go:25-28 | without one it fails and runs none |
| Traces.CallActions | agent/graph.go:208-355 | what a registered call does and in which order: log, question and log at the gate, then the call with its arguments if it is let through and accepted, and last the memory entry with its result for the thread of the run |
| Traces.TurnAnswersCalls | agent/graph.go:194-357 | a turn has one result for every registered call, in call order |
| Traces.TurnMessages | agent/graph.go:183-353 | a turn appends the assistant message and one tool message for every registered call, in order, to an unchanged history |
| Traces.TurnIsReadBack | llms/anthropic/anthropic.go:98-104 | every tool message of a turn, but for calls without an ID and data that cannot be printed, is sent as a tool result block with the ID of its call, whose text is the data of the tool as they are printed again, "ok" if there are none, or the error |
| Nesting.LawfulGate | agent/graph.go:210-296 | a gate logs a matching pair around its question and writes nothing else |
| Nesting.LawfulMade | agent/subagent.go:30-45 | a permitted call with everything its sub-agent does keeps gating, pairing, thread and checkpoint rules |
| Nesting.LawfulTurn | agent/graph.go:194-357 | so does every turn |
| Nesting.LawfulLoop | agent/graph.go:122-363 | so does every loop, from any state |
| Nesting.RunLawful | agent/graph.go:62-367 | every run with its sub-agents at any depth: calls only when permitted, requests and decisions alternate in matching pairs, entries and checkpoints only of its own thread or the empty one with iterations 1 to 20, and the store is what the checkpoints say |
| Nesting.NoCallWithoutApproval | agent/graph.go:210-315 | no run makes a call that is unregistered, whose arguments are not the decoded object or do not fit, or that, on a gated tool, was not just granted itself; around every question the log has the request with the hash of the arguments and the decision as it was given |
| Lifetime.PersistedAfter | agent/checkpointer.go:31-67 | after any actions the checkpoint of a thread is the last state written for it |
| Lifetime.LoopHistory | agent/graph.go:122-363 | the checkpoints of a loop follow one another with rising iterations, each a prefix of the next |
| Lifetime.RunExtendsThread | agent/graph.go:106-171 | wherever a run fails or is stopped, the checkpoint is untouched, or is the state the run began with and behind it the transcript of its replies: what the assistant said and the answer to every registered call, in order |
| Lifetime.VisitAppends | agent/graph.go:106-362 | one run, failing or stopped anywhere, only appends messages and only raises the iteration, up to 20 |
| Lifetime.HistoryIsAppendOnly | agent/graph.go:111-361 | over any number of runs the messages begin with the system prompt and number one more than inputs, assistant turns and registered calls that were saved |
| Lifetime.HistoryIsChronicle | agent/graph.go:111-361 | the saved messages of a thread are, run by run, those before, the input, and the transcript up to the last checkpoint; runs without a checkpoint leave nothing |
| Lifetime.OthersLeaveThread | agent/checkpointer.go:31-44 | a run, failing or stopped anywhere, leaves the checkpoints of all other named threads as they are |
| Lifetime.LifeAmongOthers | agent/graph.go:106-362 | among any runs on any other threads, a named thread keeps its order and budget, and its messages count only its own runs |
| Lifetime.LifeOnlyGrows | agent/graph.go:117-361 | between any two moments of a life messages are appended and the iteration does not fall |
| Lifetime.LoopBudget | agent/graph.go:122-131 | the answered model calls of a loop are what its last checkpoint adds to the iteration |
| Lifetime.BudgetIsForLife | agent/graph.go:122-124 | over all runs of a thread the answered model calls equal the saved iteration and never exceed 20 |
| Lifetime.VisitAnswers | agent/graph.go:122-363 | wherever a run stops and whatever fails in it, its answers are those the checkpoint gains and those lost behind its last written checkpoint; of a run that is not stopped, these are all answered model calls |
| Lifetime.AnswersKeptOrLost | agent/graph.go:122-363 | over any runs with failures and crashes the answers are as many as the saved iteration, at most 20, and the lost ones |
| Lifetime.SpentThreadIsRefused | agent/graph.go:122-366 | a run on a thread asks the model nothing, does nothing and ends in max_iterations_reached exactly if the thread has used up its 20 iterations |
| SharedThread.CallUses | agent/subagent.go:39-41 | a call adds to the shared iteration count exactly the answers its sub-agent itself got from the model, however deep the sub-agents below go |
| SharedThread.RunUses | agent/subagent.go:39-41 | a run on a named thread adds exactly the answers of the sub-agents it starts itself |
| SharedThread.SubAgentsShareBudget | agent/subagent.go:30-41 | over any runs on any named threads, the sub-agents these start themselves get together as many answers as the shared checkpoint counts, never more than 20 |
| SharedThread.TotalAgainstCheckpoint | agent/graph.go:360 | all sub-agents at any depth get at least as many answers as the shared checkpoint gains, and exactly as many if and only if no sub-agent of a sub-agent gets any |
| SharedThread.NestedAnswersAreNotCounted | agent/deepagent.go:63 | wherever sub-agents can be started, there is a run whose sub-agents get 21 answers and leave a checkpoint that counts 1 |
| SharedThread.SpentSubAgentsFail | agent/graph.go:122-366 | once that budget is used up, a call that starts a sub-agent asks the model nothing and its result is the error max_iterations_reached, word for word |
| SharedThread.SubAgentInheritsHistory | agent/graph.go:106-119 | a sub-agent begins with the shared history and its own task; its own prompt is used exactly if there is no checkpoint yet or it has the description of the first |
| EndToEnd.StepStrict | agent/hitl_audit.go:215-248 | one log call of a run keeps a strictly valid file so exactly if the entry is not written or is complete |
| EndToEnd.OpsStrict | agent/hitl_audit.go:155-157 | any log calls of runs with restarts in between leave a strictly valid file exactly if every written entry is complete |
| EndToEnd.RunsKeepFileAccepted | agent/graph.go:210-296 | any sequence of runs, with sub-agents, failing log calls, restarts and crashes, leaves a file the verifier accepts |
| EndToEnd.RunsAgainstStrictVerifier | agent/hitl_audit.go:226-246 | any sequence of runs leaves a strictly valid file exactly if no written entry lacks a name; if the world names everything, exactly if none comes from the empty thread |
| EndToEnd.NamedRunsPassStrictVerifier | agent/graph.go:210-296 | runs on named threads without sub-agents, from an absent or strictly valid file, always pass the strict verifier, whichever log calls fail |
| EndToEnd.StrictExactlyWithoutApprovals | agent/deepagent.go:42-63 | in a configuration with a tool that starts sub-agents, all named runs leave a strictly valid file exactly if no named tool needs approval |
| EndToEnd.StrictWithoutApprovals | agent/graph.go:210 | without such a tool, any named runs with sub-agents leave a strictly valid file |
| EndToEnd.GateSessionIsNotStrict | agent/subagent.go:39-41 | with one, there is a run on a named thread, on a fresh file that can always be written, that leaves a file the strict verifier rejects |
| EndToEnd.SubAgentEntriesAreNameless | agent/subagent.go:39-41 | every entry that a sub-agent logs, at any depth, has the empty thread ID |
| EndToEnd.SubAgentFailsStrictVerifier | agent/subagent.go:39-41 | a run whose sub-agent gets to the gate leaves a file that the plain verifier accepts and the strict one rejects |
| EndToEnd.SubAgentAtGate | agent/subagent.go:30-42 | in every configuration with a tool that starts sub-agents and a tool that needs approval, be it the same, a run brings a sub-agent to the gate |
| EndToEnd.OpsAreRecorded | agent/hitl_audit.go:59-79 | log calls that reach the file appear in it in order, unchanged but for hashes, and for the time if it was not set |
| EndToEnd.RunAppendsPairs | agent/graph.go:221-295 | a run with sub-agents whose log calls all succeed appends to the file an alternation of requests and the decisions on them |
| Streaming.EveryScheduleIsConsistent | agent/deepagent.go:184-197 | for every interleaving, received then buffered then unsent events are the trace, at most 32 are buffered, and the channel closes only behind the last |
| Streaming.DrainingDelivers | agent/deepagent.go:184-197 | a schedule cannot go on exactly if the consumer knows the end, which takes two steps an event and two more; then it has the whole trace |
| Streaming.TerminalEventEndsStream | agent/deepagent.go:186-195 | a consumer of any run holds a terminal event exactly if it holds the whole trace; the channel is closed only after that event went in |
| Streaming.AbandonedProducerEnds | agent/deepagent.go:185-189 | once the consumer stops receiving, the producer can still end exactly if no more than 32 events are not received |
| Streaming.LongTurnStallsProducer | agent/deepagent.go:185-189 | for instance, it cannot when nobody receives a run with a turn of sixteen calls |
| Slugs.Slugify | agent/subagent.go:97-119 | the loop yields the lower-case words of the text joined by dashes |
| Slugs.WordsDetermined | agent/subagent.go:104-115 | the rules that fix the words of every text: ASCII letters and digits alone are one word, what is neither letter nor number parts words, and other letters leave no trace |
| Slugs.SlugNormalForm | agent/subagent.go:97-119 | every slug is in normal form, and a text is its own slug exactly if it is in normal form |
| Slugs.SlugIdempotent | agent/subagent.go:97-119 | the slug of a slug is the slug |
| Slugs.SlugKeepsLetters | agent/subagent.go:104-112 | without its dashes a slug is the ASCII letters and digits of the lower-case text, in order |
| Slugs.TrimmingKeepsWords | agent/subagent.go:98 | trimming spaces first makes no difference to the words |
| Subagents.BaseIsSlug | agent/subagent.go:65-72 | the base of a file name is a slug of 1 to 40 characters: that of the description, cut after 40 characters or before a dash there, or "task" |
| Subagents.CandidateInjective | agent/subagent.go:83-87 | different bases or indices never give the same file name |
| Subagents.FirstFree | agent/subagent.go:83-93 | the search finds the first candidate that is not there, and nothing only if all candidates are |
| Subagents.NextSubagentResultFile | agent/subagent.go:64-95 | the name is the first free candidate for the description; none if the listing fails or all 9999 are taken |
| Subagents.FreeNameExists | agent/subagent.go:86-94 | with fewer than 9999 names there is always a free one |
| Subagents.InMemoryBackend.List | tools/builtin/fs/inmemory.go:18-26 | the listing has exactly the names of the files, each once, in some order |
| Subagents.InMemoryBackend.Write | tools/builtin/fs/inmemory.go:37-42 | the file has the new content, all others are as before |
| Subagents.MergeResult | agent/subagent.go:47-52 | a merge writes the answer under the first free name, or nothing |
| Subagents.MergeOnlyAdds | agent/subagent.go:47-52 | a merge leaves every file as it is and adds at most one, under the first free of 9999 names, that holds the heading with the description, a blank line, the answer and a newline |
| Subagents.AnswerIsRecovered | agent/subagent.go:51-52 | the answer is recovered from that file |
| Subagents.AnswersAreToldApart | agent/subagent.go:47-52 | sub-agents with one description and different answers leave different files under the same name |
| Subagents.MergesAddDistinctFiles | agent/subagent.go:47-52 | n merges add n different files that hold the n answers and change no other, as long as there are at most 9999 in the end |
| Subagents.MergesKeepFiles | agent/subagent.go:47-52 | any number of merges changes no existing file |
| Stores.ValidComponentMeaning | agent/checkpointer.go:69-84 | the accepted names are the empty one and those that are one path element as they stand, with no backslash and no ".." |
| Stores.FileOfAccepted | memory/store.go:47 | the file of an accepted name lies directly below the store, or below its namespace, and nowhere else |
| Stores.FileOfInjective | memory/store.go:62-79 | different accepted names have different files |
| Stores.FileStore.Write | agent/checkpointer.go:31-44 | bad names and failing writes leave the store alone and are reported; else the file is overwritten |
| Stores.FileStore.Read | agent/checkpointer.go:46-67 | found or missing, or failed for a bad name or any error but absence |
| Stores.ReadAfterWrite | memory/store.go:38-79 | a written value is read back under its name; reads of all other names are unaffected |
| Stores.FilesRefineMap | memory/store.go:38-79 | for any operations with any failures the store answers as a map from names to last values does |
| Validation.ValidateAgainstSchema | tools/validation.go:160-234 | the walk accepts exactly if all names it takes for required are given and all given properties fit, in every iteration order |
| Validation.SchemaAcceptsExactly | tools/validation.go:170-231 | that is: every string in a list of required names is given, and a given argument whose property names one of the five kinds is a string, a number, a boolean, a list or an object; nothing else is asked |
| Validation.OtherSchemasAcceptAll | tools/validation.go:161-168 | without a schema, or with one that is not for objects, everything is accepted |
| Validation.RequiredOf | tools/validation.go:172-180 | the names the walk takes for required: the strings in a list of any, and none from any other list |
| Validation.AllGiven | tools/validation.go:182-190 | the loop accepts exactly if every required name is given |
| Validation.AllFit | tools/validation.go:192-231 | the loop accepts exactly if every described and given property has its kind |
| Validation.ApplyPasses | tools/validation.go:13-65 | one validator of a chain passes exactly if its names are given and not empty, or its argument is not given or has the kind it names; other kinds never pass |
| Validation.ChainAgreesWithSchema | tools/validation.go:13-117 | for every order of the type checks the chain passes exactly if the schema walk accepts and no required argument is the empty string |
| Validation.ChainPanics | tools/validation.go:26-64 | a chain panics exactly if it comes, past validators that pass, to an array check that is given a null |
| Schema.GeneratePropertySchema | llms/schema.go:10-33 | the schema of any type, by its kind |
| Schema.GenerateStructSchema | llms/schema.go:35-72 | the loop builds the schema of the tagged fields and the list of the required ones |
| Schema.EncodedIsAccepted | llms/schema.go:35-72 | the validator accepts the encoding of a struct under its own schema exactly if no field with a tag without options is nil |
| Schema.ReplacedFieldIsChecked | tools/validation.go:192-231 | whatever replaces the value of a field is accepted exactly if it is a string, number, boolean, list or object as the type of the field asks, or the field has no tag or one with options |
| Schema.OptionHidesField | llms/schema.go:47 | for instance, a required field with options in its tag may have any value for the validator, and none for JSON Schema |
| Schema.RequiredIsNotEnforced | llms/schema.go:66-68 | leaving out any argument, required or not, is never an error under a generated schema |
| Schema.MissingPathIsAccepted | llms/schema.go:66-68 | for instance, a missing required path, which JSON Schema rejects, is accepted |
| Schema.EncodedConforms | llms/schema.go:10-72 | at every depth an encoded value conforms to its generated schema exactly if nothing in it that the schema describes is nil and nothing is required under a tag with options |
| ToolMessages.ToolMessageFields | agent/graph.go:426-432 | a tool message is the text of an object with the name and whether the call succeeded, and with call ID, data, error and code exactly if there are any |
| ToolMessages.ToolResultRoundTrip | agent/graph.go:426-432 | reading a written tool result recovers the call ID, and the data as they are read, "ok" or the error; without a call ID it is not recognised |
| ToolMessages.DataIsRecovered | llms/anthropic/anthropic.go:177-189 | the data come back with the text they were printed with exactly if every integer in them is printed again with its own digits |
| ToolMessages.IntegersCollide | llms/anthropic/anthropic.go:177-189 | results with different integers that are read as the same float64 are sent alike |
| ToolMessages.LargeIntegerIsLost | llms/anthropic/anthropic.go:177-189 | for instance, instead of 2^53 + 1 its neighbour 2^53 is sent |
| ToolMessages.FallbackIsRead | agent/graph.go:428-430 | what a JSON reader finds in the text written by hand, for every tool name and error text: its four members and those the name brings along, or nothing |
| ToolMessages.FallbackIsRecognised | llms/anthropic/anthropic.go:175-183 | that text is recognised as a tool result exactly if the tool name, closed off as an object, has a call ID, and the error text can stand in a string |
| ToolMessages.FallbackIsLegacyText | llms/anthropic/anthropic.go:105-111 | with a tool name that has no quotation mark it is never recognised, whatever the error text, and sent as legacy text |
| ToolMessages.NameWithCallIdIsRecognised | agent/graph.go:429 | a tool name that ends its string and adds a tool_call_id makes it recognised, for every error text that can stand in a string |
| ToolMessages.FoldMessages | llms/anthropic/anthropic.go:83-114 | one request message for every assistant, user and tool message, in order: text under its own role, or from the user the result block with the call ID, or the marked text if it is not recognised; system prompts are joined by newlines from the first that is not empty |
| ToolMessages.SystemPromptsPicked | llms/anthropic/anthropic.go:84-90 | those prompts are the contents of all system messages, in order |
| Sandbox.ImageAllowed | tools/builtin/sandbox.go:465-486 | an image is allowed exactly if an entry of the list names it or is a starred beginning of it |
| Sandbox.MatchesExactly | tools/builtin/sandbox.go:465-486 | an entry with a star stands for all names that begin with what is before it, any other one for itself |
| Sandbox.CheckCommand | tools/builtin/sandbox.go:153-177 | the first reason against a command, or its fields, of which there is at least one |
| Sandbox.ByteLengthConcat | tools/builtin/sandbox.go:171 | the length of an argument is counted in bytes, those of all its characters |
| Sandbox.ByteLengthOne | tools/builtin/sandbox.go:171 | the bytes of one character, as UTF-8 (section 3 of RFC 3629) has them |
| Sandbox.LetThroughIsHarmless | tools/builtin/sandbox.go:155-177 | a command is let through exactly if it has an allowed program, arguments within number and length and without "..", no unsafe character, and no text beyond its fields |
| Sandbox.ReadOptions | tools/builtin/sandbox.go:268-328 | options are read back from an argument list one by one, whatever their values look like |
| Sandbox.BuildContainerCommand | tools/builtin/sandbox.go:251-333 | the first reason against starting a container, or the program and the argument list of the configured options, image and command |
| Sandbox.ArgumentsReadBack | tools/builtin/sandbox.go:268-332 | the container program reads exactly the intended options, image and command from the arguments, exactly if the image does not begin with a dash |
| Sandbox.DashedImageIsLaunched | tools/builtin/sandbox.go:260-266 | for instance, without an allowlist the image "-it" passes every check and is not read back as the image |
| Sandbox.OptionsConfine | tools/builtin/sandbox.go:268-349 | the values of all options of every container: no capabilities, no new privileges and the seccomp profile, one network, limits, user, runtime and root as configured, at most one mount, read-only; a required profile is there |
| Sandbox.Prepare | tools/builtin/sandbox.go:153-249 | which program Execute starts with which arguments, or the first reason why none, the container policy included |
| Sandbox.RefusedForFirstObjection | tools/builtin/sandbox.go:153-349 | in every mode a command is launched exactly if none of the objections in the order of the source applies, and otherwise refused for the first: command, policy, signature, program, image, user, paths, mode |
| Sandbox.ProcessIsCommand | tools/builtin/sandbox.go:236-248 | without a container the program and the arguments launched are the harmless words of the command, in the working directory |
| Sandbox.ContainersAreConfined | tools/builtin/sandbox.go:153-333 | a launch in a container has a harmless command and a listed image, and is read by the container program as a confining option list, that image and that command |

## Left out

- HTTP, provider SDKs, `exec.Command`, docker and cosign probes, consoles and HTTP approvers: their answers are part of scripts and of `Sandbox.Host`.
- SHA-256: a function with the properties of `Audit.Codec`; files of checkpoints are identified with what they decode to.
- JsonText.ReadIsJson: the conversion of numbers is a parameter; invalid UTF-8 and the limit on nesting are left out.
- JsonWriter.ValueIsReadBack: members are written in some order, not sorted; no reader depends on it.
- The line-length limit of `bufio.Scanner`, partial writes, permissions, directory creation: lines are written whole, checkpoints atomically.
- Several live writers on one log file, overlapping runs on one thread, and the concurrency of `sync` locks: the code gives no guarantee there; runs and writers follow one another.
- Lifetime.RunExtendsThread: speaks of runs to whose thread no sub-agent writes, since sub-agents of a run on the empty thread ID save over its checkpoint.
- EndToEnd.StrictExactlyWithoutApprovals: a tool counts as one that starts sub-agents if some arguments get it past the validator with a description; in the code only `task` does so.
- SharedThread.SubAgentsShareBudget: the sub-agents that runs start themselves can read and write their checkpoints; what those below meet with is open.
- Audit.FileHITLAuditLogger.LogHITLEvent: arguments that are no decoded JSON value count as unprintable, although Go integers and string slices are printed; runs log only decoded arguments, texts and nil.
- ToolMessages.DataIsRecovered: the data of a result are JSON values, 64-bit integers and string slices, nested in lists and maps; structs, float32, unsigned integers, nil slices other than as null, and custom marshalers are not.
- Graphs.Graph.MakeCall: the data that a merge returns to the parent comes from the script, and every tool may start a sub-agent; merging itself is in `Subagents`.
- Graphs.Graph.Execute: the text of a validation error comes from the script, and long-term memory writes are recorded as actions, without their content in a store.
- Validation.ValidateAgainstSchema: error texts are left out, and so is the JSON Schema library that replaces this walk under a build tag.
- Schema.EncodedIsAccepted: a number is the float64 it is decoded to and all integer and float kinds are one; byte slices, maps, interfaces, embedded structs, tags that are no valid names, and custom marshalers are not encoded.
- Streaming.DrainingDelivers: the timing of steps, and the actions of the run between its events, are left out; events are those of `RunSpec` in order.
- Sandbox.Prepare: timeouts, the environment of the program and the truncation of its output are left out; whether the daemon is rootless and the image signed are answers of the host.
- `ValidateLength`, `ValidateEnum`, `WrappedTool`, memory `List`, backends other than the in-memory one, redis and sqlite stores.
- Provider selection, environment variables, skills, todos, loggers and metrics, and the command line: plumbing without state to reason about.
- Termination of nested sub-agents is not claimed: the code does not bound their depth, and a script is a finite tree.
