# Nodestack, modelled and proved in Dafny

These modules model the parts of Nodestack where a mistake would be silent: an execution that forgets a step, a list
that shows a row too many, a queue that never wakes up. Each model follows the code branch by branch; the lemmas state
what the code promises about it, for all inputs, all runs and all interleavings.

- **Rules, filters and SQL.** `Scanner` holds the quote and parenthesis scanners as an automaton and as the loops that
  implement it. `RuleEngine` evaluates a rule and compiles it into a filter string; `QueryFilterParser` reads a filter
  string into a parameterised clause; `FilterCodec`, `FilterTokens`, `BalancedText` and `LikePattern` show that what the
  one prints the other reads. `ListFilter` states that the pair preserves meaning, `UserFilter` what the caller's own
  filter adds to it, `ClauseText` that text and parameters always fit. `Values` and `Strings` are the vocabulary.
- **The flow interpreter.** `FlowEngine` defines a run: retry, catch, loops, nested sub-flows and the step budget that
  they share. `FlowInterpreter` is the same as loops over mutable state. `FlowBounds`, `FlowSchedule`, `FlowBudget` and
  `FlowResume` prove how much a run can do, one sub-flow after another or all side by side, and that resuming it equals
  not having crashed.
- **The execution service.** `ExecutionProtocol` is the state machine over rows, claims, controllers, dispatches and
  runners; each stretch of JavaScript between two awaits is one action. `ExecutionSafety` proves what every interleaving
  keeps for any engine that only extends its log, `ExecutionDurability` composes it with the interpreter, and
  `FlowService` is the object whose methods perform the actions.
- **Queue coordination.** `QueueWake` is the wake and drain protocol, `QueueService` the object.
- **CSV, CRC-32 and PNG chunks.** `CsvHelper`; `BitWords`, `Crc` and `Png`, after sections 3.2 and 3.4 of RFC 2083.
- **Flow validation and references.** `FlowValidator`, `FlowReferences`, `FlowRefactoring` and `FunctionService`.
- **Token keys.** `TokenCache` and `AuthService`.

What lies outside is a parameter: the functions that Task states call, the conditions of choices and loops, the path
mapper and the two comparison operators are functions of a `World`; the clock, random tokens and the state of the
database lock are arguments. A call is told its place in the run (step and attempt numbers), so a function may answer
differently every time it is called. A word of 32 bits is a sequence of 32 booleans, lowest first.

Where the code does not do what one would expect, the model follows the code:

- A payload that is undefined at a checkpoint is stored as nothing, and resuming puts the flow's input in its place
  (`FlowResume.UndefinedPayloadIsLost`).
- A crash right after a failed transition was persisted leaves a claim on a failed row; recovery releases claims of
  running and queued rows only, so the execution cannot be resumed (`ExecutionDurability.RestartResumesIff`).
- A queued job whose row turns out to be complete, or cannot be resolved, keeps its claim in memory. A runner implies a
  claim, not the other way round.
- A queued execution that was started without an input begins with null instead of the empty object when it is
  dispatched directly or its job is re-sent from its row (`ExecutionDurability.DispatchStartsAlikeIff`).
- A reference to a function is looked up by id first when it is run and by name first when its policy is checked. Ids are
  given by users, so a rename can make a call run another function (`FunctionService.RenameKeepsTargetIff`).
- LIKE says nothing of a null column, which a rule takes as empty text (`ListFilter.LikeAgreesIff`), and a rule with `!~`
  is evaluated as if its left side were `field !` (`ListFilter.NotLikeIsReadTwice`).
- A password change drops the cache entry of the admin found before its await and re-keys whoever has the address after
  it (`TokenCache.PasswordChangeAgreesIff`).
- The caller's filter is joined to the rule's as text, each in parentheses, and its own parentheses are not looked at.
  One that closes them early and goes on behind a `||` lists rows that the rule does not
  (`UserFilter.WidensIffEscapes`); one without a `||` at its own level only narrows (`UserFilter.UserFilterNarrows`).
- A catch policy with a blank or missing `next` ends the flow in success. Its transition is persisted as running, and
  resuming it repeats the step (`FlowResume.BlankCatchRunsAgain`); if it takes the error of the step limit, the flow
  succeeds above the limit (`FlowBudget.SwallowedLimitSucceeds`).
- A comparison with its column on the right is dropped from a list filter and then admits every row.
- Deleting a queue, resetting, disposing and a locked database can forget a wake (`QueueWake.WakeLostIff`).
- With one column a trailing empty cell is lost, without columns nothing is read back, and a carriage return or a quote
  is no delimiter for more than one row or column (`CsvHelper.ReadsBack`).
- Validation does not look at catch policies, renaming does not see references with white space around them, and the
  dependency check of queues does not see ids with white space around them.
- A revocation updates every account that answers to an id or an e-mail address, and drops the cache entry of the first.

## Model

| member | source | states |
|---|---|---|
| `ListFilter.CompilerPreservesMeaning` | src/rules/RuleEngine.ts:24-143 | for every rule string with good leaves, every request and every row: the rule evaluates to true for the row if and only if listing is allowed and the generated filter, parsed again and turned into SQL, admits the row |
| `UserFilter.WidensIffEscapes` | src/records/RecordService.ts:126-131 | for every user filter, balanced or not: a row that the rule's filter does not admit is listed if and only if a piece of the user's text behind its first `&#124;&#124;` at its own level turns into a clause that admits the row |
| `UserFilter.JoinedMeans` | src/records/RecordService.ts:126-131 | what `(rule) && (user)` says of a row for every user filter: in one piece the conjunction of the rule's filter with the user's conjuncts, in several the OR of the first piece and the later ones, as far as they turn into clauses |
| `UserFilter.UserFilterNarrows` | src/records/RecordService.ts:126-131 | a user filter without a `&#124;&#124;` at its own level, balanced or not, only narrows, which can be checked before the call |
| `UserFilter.NarrowsEveryRuleIff` | src/records/RecordService.ts:126-131 | a user filter narrows what every rule lists for a row if and only if none of its later pieces admits the row |
| `UserFilter.ClosedEarlyEscapesIff` | src/records/RecordService.ts:126-131 | a filter that closes the parenthesis and opens another one after a `&#124;&#124;` reaches a row by itself exactly when its second part turns into a clause that admits the row |
| `UserFilter.ClosedEarlyWidens` | src/records/RecordService.ts:126-131 | an input where narrowing fails: with it every row of another id is listed beside any rule's filter |
| `UserFilter.UserFilterOnlyNarrows` | src/records/RecordService.ts:126-131 | joining two balanced filters as `(rule) && (user)` admits exactly the rows that both admit |
| `UserFilter.ListRequestIsExact` | src/records/RecordService.ts:120-131 | the whole list request, for every user filter: a row that fails the rule is listed if and only if the rule left a filter to join and a later piece of the user's text admits the row; with a balanced user filter exactly the rows are listed that pass the rule and the filter |
| `UserFilter.ListRequestIsSafe` | src/records/RecordService.ts:120-131 | no row that fails the rule is listed when the user filter has no `&#124;&#124;` at its own level |
| `ListFilter.ExpressionSound` | src/rules/RuleEngine.ts:50-143 | the induction behind it: at every node of the rule the partial evaluation is sound and its filter is a conjunction of units the parser reads back one by one |
| `ListFilter.AnySound` | src/rules/RuleEngine.ts:55-76 | an OR of sound parts is sound, with or without row-level parts |
| `ListFilter.EverySound` | src/rules/RuleEngine.ts:78-95 | an AND of sound parts is sound |
| `ListFilter.GroupSound` | src/rules/RuleEngine.ts:97-108 | a rule in parentheses keeps them around its filter, which then reads as one unit |
| `ListFilter.LeafSound` | src/rules/RuleEngine.ts:110-143 | a comparison is sound whether it is decided from the request alone or printed for the row |
| `ListFilter.RowComparison` | src/rules/RuleEngine.ts:112-134 | a printed row-level comparison admits the row exactly when the rule's comparison holds |
| `ListFilter.RowFlag` | src/rules/RuleEngine.ts:137-140 | a bare column in a rule is printed as a comparison with true that admits the rows in which it is truthy |
| `ListFilter.RequestLeaf` | src/rules/RuleEngine.ts:225-282 | a comparison that names no column has the same verdict with and without the row |
| `ListFilter.OperandIsPushed` | src/rules/RuleEngine.ts:145-170 | the text substituted for an operand, null and absent request values included, is a token that the parser binds as the value the source binds for it |
| `ListFilter.SameOperatorIff` | src/rules/RuleEngine.ts:226-231 | the list compiler and the evaluator find the same operator in a comparison if and only if it is not `!~` |
| `ListFilter.LikeAgreesIff` | src/records/QueryFilterParser.ts:175-181 | for `~` with an operand that reads the same in both places, SQL says of a row what the rule says if and only if the column is not null or the text looked for is not empty |
| `ListFilter.LikeRuleAgreesIff` | src/rules/RuleEngine.ts:110-134 | the same for the whole rule `field ~ token`, where the token is a quoted literal, a number, a keyword or a reference, from its text through scanning, printing and parsing to the row |
| `ListFilter.NullTitleIsNotListed` | src/rules/RuleEngine.ts:273-274 | an input where it fails: `title ~ @request.query.q` without q holds for a row with a null title, which the list leaves out |
| `ListFilter.NotLikeIsReadTwice` | src/rules/RuleEngine.ts:227-234 | the rule `field !~ token` lists the stored columns in which the text does not occur, while evaluating it only asks whether the text is empty |
| `ListFilter.ConjunctionIsRead` | src/records/QueryFilterParser.ts:91-126 | text made of units joined by `&&` is split and converted into exactly the conjunction of its units |
| `ListFilter.DisjunctionIsRead` | src/records/QueryFilterParser.ts:97-104 | a parenthesised OR of filters is read back as the OR of what each admits |
| `ListFilter.ComparisonSurvivesIff` | src/records/QueryFilterParser.ts:143-150 | a printed comparison restricts the list if and only if its left side is an allowed column; otherwise it is dropped and admits every row |
| `ListFilter.ColumnOnTheRightIsDropped` | src/records/QueryFilterParser.ts:143-150 | a concrete comparison with its column on the right is dropped and admits every row |
| `ClauseText.ParametersFitClause` | src/records/QueryFilterParser.ts:72-126 | for every input string: the parameters fill the question marks of the clause in order with none missing and none left, and its parentheses are balanced |
| `ClauseText.BindClause` | src/records/QueryFilterParser.ts:128-196 | each part of a clause consumes exactly its own parameters, left to right |
| `ClauseText.ClosesClause` | src/records/QueryFilterParser.ts:99-120 | the text of a clause never closes a parenthesis it has not opened and closes all it opens |
| `QueryFilterParser.ParseFilter` | src/records/QueryFilterParser.ts:72-89 | the parser's loop and parameter array produce the text and the parameters of the clause tree |
| `QueryFilterParser.ConvertFilterExpression` | src/records/QueryFilterParser.ts:91-126 | the recursive conversion pushes onto the shared parameter array exactly the parameters of the converted tree, in order, and terminates |
| `QueryFilterParser.ConvertJoined` | src/records/QueryFilterParser.ts:99-113 | mapping, filtering and joining the parts gives the text of the group without its empty parts |
| `QueryFilterParser.ParseSingleComparison` | src/records/QueryFilterParser.ts:128-196 | one comparison pushes one parameter, or none for a null test or a rejected field, and returns the matching text |
| `QueryFilterParser.ParamList.Push` | src/records/QueryFilterParser.ts:157-191 | appends to the shared array and changes nothing else |
| `Scanner.SplitTopLevel` | src/records/QueryFilterParser.ts:221-254 | the index loop over depth and quotes splits exactly where the automaton sees a delimiter at depth 0 outside quotes |
| `Scanner.FindOperatorIndex` | src/records/QueryFilterParser.ts:256-287 | the scan returns the first position at depth 0 outside quotes where the operator stands and is no part of a longer one, or -1 |
| `Scanner.FindFirstOperator` | src/records/QueryFilterParser.ts:137-139 | trying the operators in table order finds the first that occurs |
| `Scanner.IsFullyEnclosed` | src/records/QueryFilterParser.ts:289-312 | true exactly when the first parenthesis closes at the last character, outside quotes |
| `Scanner.IsFullyEnclosedIgnoringQuotes` | src/rules/RuleEngine.ts:406-414 | the same without regard to quotes |
| `Scanner.IsCharEscaped` | src/records/QueryFilterParser.ts:213-219 | counting backslashes back from a position gives the parity that the forward automaton keeps |
| `Scanner.PartsAreShorter` | src/records/QueryFilterParser.ts:97-107 | when a string is split in two or more, every part is strictly shorter, so the recursion terminates |
| `BalancedText.ParensMakeUnit` | src/records/QueryFilterParser.ts:289-312 | balanced text in parentheses is one unit: never split, and unwrapped to itself |
| `BalancedText.SplitJoined` | src/records/QueryFilterParser.ts:221-254 | splitting a join of operands at its separator gives the operands back, blanks aside |
| `BalancedText.JoinedIsBalanced` | src/rules/RuleEngine.ts:72-94 | a join of operands is itself balanced |
| `FilterCodec.RoundTrip` | src/records/FilterCodec.ts:12-50 | decoding an encoded string gives the string back, for every string |
| `FilterCodec.ChainIsOnePass` | src/records/FilterCodec.ts:14-21 | the chained replacements of the encoder are one pass over the characters |
| `FilterTokens.EncodedIsLiteral` | src/records/FilterCodec.ts:12-22 | an encoded string is one sealed literal: no quote inside it ends it early |
| `FilterTokens.EncodedIsOpaque` | src/records/QueryFilterParser.ts:221-287 | wherever an encoded string stands outside quotes and not behind a backslash, at any depth and whatever follows it, the scanners go on behind it as they were before it, having seen no separator, operator or parenthesis in it |
| `FilterTokens.EncodedIsNotSplit` | src/records/QueryFilterParser.ts:221-254 | splitting keeps it whole as well, and goes on with what follows it |
| `FilterTokens.EncodedParameter` | src/records/QueryFilterParser.ts:128-211 | the only parameter bound for `field op encode(s)` is s itself, or for `~` and `!~` the pattern of s, for every operator and whatever s contains |
| `FilterTokens.PrintedLeaf` | src/records/QueryFilterParser.ts:128-196 | a printed comparison is one unit and converts to that comparison of that field, operator and value |
| `FilterTokens.UnitConverts` | src/records/QueryFilterParser.ts:115-122 | a parenthesised filter converts to its body in parentheses |
| `LikePattern.ContainsExactly` | src/records/QueryFilterParser.ts:175-190 | for all strings s and t, the pattern built for `~` matches t under LIKE with the backslash as escape character if and only if s occurs in t up to case folding |
| `RuleEngine.ListExpression` | src/rules/RuleEngine.ts:50-108 | the recursive compiler with its loops and its list of row filters computes the access that the partial evaluation defines |
| `RuleEngine.ListAny` | src/rules/RuleEngine.ts:56-76 | the loop over OR parts returns unrestricted access at the first unconditional part and collects the filters otherwise |
| `RuleEngine.ListEvery` | src/rules/RuleEngine.ts:78-95 | the loop over AND parts denies at the first denied part and collects the filters otherwise |
| `RuleEngine.FirstOperatorFits` | src/rules/RuleEngine.ts:226-233 | an operator that is found lies within the comparison, so both operands are well defined |
| `FlowInterpreter.Execute` | src/flows/FlowEngine.ts:146-383 | the main loop over local variables, with the tracker passed by reference, returns the outcome, the last state and all transitions of the run and leaves the tracker at its final count |
| `FlowInterpreter.Turn` | src/flows/FlowEngine.ts:147-210 | one turn counts the step, looks the state up and runs its handler as the step function says, at every nesting depth |
| `FlowInterpreter.Settle` | src/flows/FlowEngine.ts:210-379 | what follows the handler: the log entry, the caught, failed or next state and the checkpoint of the transition |
| `FlowInterpreter.ExecuteWithRetry` | src/flows/FlowEngine.ts:443-499 | the retry loop makes exactly the attempts that the policies grant and leaves loop counters and tracker as the last attempt did |
| `FlowInterpreter.HandleState` | src/flows/runtime/StateHandlers.ts:92-230 | one handler call returns the reply and updates the loop counters and the tracker of its sub-flows |
| `FlowInterpreter.HandleSubFlows` | src/flows/runtime/StateHandlers.ts:92-156 | the sub-flows of a Map or Parallel state run in turn on the shared tracker, and their outputs are placed in order |
| `FlowEngine.Run` | src/flows/FlowEngine.ts:146-383 | a run never gives back steps to the shared tracker |
| `FlowEngine.Step` | src/flows/FlowEngine.ts:157-166 | every turn takes a step from the shared tracker, and goes on only below the limit |
| `FlowEngine.MostAttempts` | src/flows/FlowEngine.ts:459-461 | at least one attempt is always made |
| `FlowEngine.GrantedAtMostMost` | src/flows/FlowEngine.ts:501-516 | the policy that matches an error grants no more attempts than the most generous one of the state |
| `FlowBounds.ExecutionIsBounded` | src/flows/FlowEngine.ts:95-161 | one execution starts at most 500 steps, nested sub-flows included, and makes at most k handler calls per step, where k is the largest number of attempts granted in the tree |
| `FlowSchedule.InterleavedIsBounded` | src/flows/FlowEngine.ts:95-161 | the same when all loops of the tree run side by side over the shared tracker, in any order, with any answers of their handlers, and with siblings that go on after a failure |
| `FlowBounds.RunSpends` | src/flows/FlowEngine.ts:105-143 | every part of a run pays for its steps from the shared tracker and for its calls from its steps |
| `FlowBounds.HistoryGrows` | src/flows/FlowEngine.ts:225-319 | every transition of a run carries a log that extends the one before by one entry, within 500 and within the steps its checkpoint counts |
| `FlowBounds.StepAppends` | src/flows/FlowEngine.ts:235-319 | one turn appends at most one entry to the log and never changes an earlier one |
| `FlowBudget.RunLowered` | src/flows/FlowEngine.ts:96-161 | starting the same run with a smaller shared count changes nothing but that count, as long as the run stays within the limit |
| `FlowBudget.RunSucceedsWithin` | src/flows/FlowEngine.ts:157-161 | a run that succeeds has kept its whole tree within the limit, even where a sub-flow ran out and was retried or caught, if no catch policy with a blank next takes the error of the limit |
| `FlowBudget.RunFailsPast` | src/flows/FlowEngine.ts:105-143 | an error that comes out of a run, a step or a batch of sub-flows with the shared count above the limit is the error of the limit itself |
| `FlowBudget.SwallowedLimitSucceeds` | src/flows/FlowEngine.ts:518-545 | a concrete flow whose blank catch policy takes that error: it succeeds with the shared count at 501 |
| `FlowResume.ResumeEqualsUninterrupted` | src/flows/FlowService.ts:1296-1385 | for any definition, deterministic handlers, run that succeeds within the step limit and transition persisted as running: executing from where it led gives the same outcome, final state, payload, logs, loop counters and remaining transitions, and the stored row resolves to that very state if and only if the state has a name and its payload was defined |
| `FlowResume.NamedFlowResumes` | src/flows/FlowService.ts:1296-1385 | so if the flow's own catch policies lead to names and no nested one swallows the error of the limit, every successful run can be resumed after every running transition with a defined payload |
| `FlowResume.CheckpointRestoresIff` | src/flows/FlowService.ts:1296-1304 | a running checkpoint gives back exactly the state that wrote it if and only if that state is one of the flow and its payload was defined |
| `FlowResume.CrashesChangeNothing` | src/flows/FlowService.ts:1296-1385 | any number of crashes at any transitions, each followed by a resume from the row, leaves the outcome and the final state as they were, for every run that succeeds within the step limit, ends at a named state and has a defined payload at every running transition |
| `FlowResume.UndefinedPayloadIsLost` | src/flows/FlowService.ts:1301-1304 | a concrete flow whose output path finds nothing: resumed, it ends in its input instead of in undefined |
| `FlowResume.BlankCatchRunsAgain` | src/flows/FlowService.ts:1300-1330 | a concrete flow whose catch policy has a blank next: its run succeeds after one call, and resuming its only transition makes the call again |
| `FlowResume.AfterSplitsRun` | src/flows/FlowEngine.ts:146-383 | a run is its first k transitions followed by the run from where they lead |
| `ExecutionDurability.DurableExecution` | src/flows/FlowService.ts:684-1652 | engine and service together, for an execution, with an input or without, whose run succeeds within the step limit, at a named state and with defined payloads: over every sequence of actions on all executions, with any number of crashes, recoveries, resumes, queueings and failed dispatches, as long as nobody aborts, clears or times it out it stays queued, running or resumable, and once it has succeeded its row holds the output and the log of the uninterrupted run |
| `ExecutionDurability.DurableJobs` | src/flows/FlowService.ts:684-1652 | the same for every engine whose runs succeed, extend their log and can be resumed from their checkpoints |
| `ExecutionDurability.EngineIsDurable` | src/flows/FlowEngine.ts:146-383 | every run of the interpreter that succeeds within the step limit, at a named state and with a defined payload at every running transition is such a run: its start and each of its running checkpoints resume into exactly the rest of it |
| `ExecutionDurability.NamedFlowIsDurable` | src/flows/FlowEngine.ts:146-383 | which every successful run with defined payloads is if the flow's own catch policies lead to names and no nested one swallows the error of the limit |
| `ExecutionDurability.RecoveryCompletes` | src/flows/FlowService.ts:1659-1780 | from every state of such a run in which the row has not succeeded yet, running, queued or failed: a crash, a restart and a resume, queue job or direct dispatch lead to success with the output and the log of the uninterrupted run |
| `ExecutionDurability.DispatchStartsAlikeIff` | src/flows/FlowService.ts:353-366 | a direct dispatch, or a job re-sent from the row, starts the engine in the state in which a direct call would if and only if the execution had an input |
| `ExecutionDurability.MissingInputBecomesNull` | src/flows/FlowService.ts:273-287 | a concrete flow where it can be seen: called without an input it answers with an empty object, dispatched from its row with null |
| `ExecutionDurability.RestartResumesIff` | src/flows/FlowService.ts:1659-1688 | after a restart an execution can be resumed if and only if its row was running, or failed without a claim |
| `ExecutionSafety.StuckForGood` | src/flows/FlowService.ts:1664-1677 | a failed row with a claim on it and nobody working on it stays exactly as it is under every sequence of actions that does not delete it: no recovery releases the claim |
| `ExecutionDurability.RunOnPath` | src/flows/FlowService.ts:1183-1236 | in every reachable state the row resumes at, and the live runner stands at, some transition of the uninterrupted run |
| `ExecutionDurability.EventsOfSuccess` | src/flows/FlowEngine.ts:319-379 | a successful run reports running transitions and then one success with the final output and log if and only if it ends at a named state |
| `ExecutionSafety.OneRunnerPerExecution` | src/flows/FlowService.ts:700-714 | over all interleavings since any start: two runners of one execution never coexist, every live runner is claimed, and no stored history exceeds 500 entries |
| `ExecutionSafety.NextKeeps` | src/flows/FlowService.ts:684-1935 | each of the sixteen actions keeps the invariant that ties rows, claims, controllers, pending dispatches and runners together |
| `ExecutionSafety.EngineIsLawful` | src/flows/FlowEngine.ts:225-319 | all that safety needs to know of the engine, that it only ever extends the log within its limits, holds of the interpreter on every flow |
| `ExecutionSafety.ExecuteKeeps` | src/flows/FlowService.ts:700-856 | a direct start keeps it |
| `ExecutionSafety.QueuedJobKeeps` | src/flows/FlowService.ts:946-1016 | a queued claim keeps it, also where it returns or throws and leaves its claim behind |
| `ExecutionSafety.UnconstrainedKeeps` | src/flows/FlowService.ts:319-413 | a dispatch without a concurrency limit keeps it |
| `ExecutionSafety.ResumeKeeps` | src/flows/FlowService.ts:1392-1652 | a resume keeps it, directly and through the queue |
| `ExecutionSafety.FinishKeeps` | src/flows/FlowService.ts:878-928 | the end of a runner keeps it, whatever the engine returned or threw |
| `ExecutionSafety.CutKeeps` | src/flows/FlowEngine.ts:267-301 | a step cut short by its timer or by a cancellation, with its failed log entry and failed transition, keeps it |
| `ExecutionSafety.TimedOutStepIsLogged` | src/flows/FlowEngine.ts:267-301 | after such a step and the timeout that ends the run, the row holds the log before the step and its one failed entry |
| `ExecutionSafety.DispatchEndsKeeps` | src/flows/FlowService.ts:822-841 | a dispatch that is sent or rolled back keeps it |
| `ExecutionSafety.HistoryIsAppendOnly` | src/flows/FlowService.ts:1183-1236 | across any sequence of steps, failures, crashes, aborts and resumes that leaves the row in place, its log is only ever extended, rollbacks of its own dispatch excepted |
| `ExecutionSafety.HistoryOnlyGrows` | src/flows/FlowService.ts:1893-1935 | no single action shortens the log of a row it leaves in place, but for the rollback of its dispatch, which puts back an earlier log of the same execution |
| `ExecutionSafety.RowIsCarried` | src/flows/FlowService.ts:684-1935 | every action but a deletion and the rollback of the execution's own dispatch leaves the row in place, extends its log at most, and changes nothing in it if it was aborted |
| `ExecutionSafety.AbortedIsAbsorbing` | src/flows/FlowService.ts:1893-1907 | no action changes anything in an aborted row, and it has neither claim nor checkpoint |
| `ExecutionSafety.AbortedForGood` | src/flows/FlowService.ts:1256-1291 | over whole runs an aborted row stays the row that the abort wrote, until it is deleted |
| `ExecutionSafety.AbortedRunnerCommitsNothing` | src/flows/FlowService.ts:1224-1236 | the next transition of an aborted execution's runner changes no row and ends its run |
| `ExecutionSafety.TransitionRefusedIff` | src/flows/FlowService.ts:1183-1236 | a live runner's transition is refused if and only if its row was aborted or its writes are suppressed; within one process it is never superseded, and otherwise a running row takes it |
| `FlowService.Executions.SaveExecution` | src/flows/FlowService.ts:1893-1935 | writes the row unless one of the three guards holds |
| `FlowService.Executions.AbortController` | src/flows/FlowService.ts:1257-1261 | fires the controller of one execution: only its runner is told, and the controller is forgotten |
| `FlowService.Executions.AbortExecution` | src/flows/FlowService.ts:1256-1291 | fires the controller in any case and aborts the row only while it is running or queued |
| `FlowService.Executions.Finally` | src/flows/FlowService.ts:922-927 | releases the row's claim if it is this runner's and forgets the execution in all three sets |
| `FlowService.Executions.ExecuteFlow` | src/flows/FlowService.ts:684-881 | conflicts exactly when the execution is claimed, pending or stored; otherwise queues it or starts its runner |
| `FlowService.Executions.EndDispatch` | src/flows/FlowService.ts:822-841 | the end of an admission through the queue, with the rollback of a failed one |
| `FlowService.Executions.ClaimQueued` | src/flows/FlowService.ts:970-991 | the conditional claim succeeds exactly on a queued row and is undone otherwise |
| `FlowService.Executions.ProcessQueuedFlowJob` | src/flows/FlowService.ts:946-1066 | the queue's worker up to its first await, every early return included |
| `FlowService.Executions.DispatchUnconstrainedQueuedExecution` | src/flows/FlowService.ts:319-378 | the direct dispatch of a queued row up to its first await |
| `FlowService.Executions.ResumeExecution` | src/flows/FlowService.ts:1392-1588 | a resume up to its first await: its refusals, its abort of what cannot be resolved, its queueing and its direct start |
| `FlowService.Executions.PersistCheckpoint` | src/flows/FlowService.ts:1183-1236 | throws exactly when the execution is suppressed, signalled, aborted or claimed by another, and otherwise updates the row if it is running and its own |
| `FlowService.Executions.OnStepTransition` | src/flows/FlowService.ts:887-889 | a runner reports its next transition and stops if it was refused |
| `FlowService.Executions.OnStepCutShort` | src/flows/FlowEngine.ts:267-301 | a step that is cut short reports a failed transition with its entry, stored or not, and the runner stops |
| `FlowService.Executions.ClearExecutions` | src/flows/FlowService.ts:1870-1891 | suppresses and signals every active execution and deletes all the rows |
| `FlowService.Executions.RecoverOrphanedExecutions` | src/flows/FlowService.ts:1664-1677 | releases the claims of active rows that nobody in this process holds |
| `QueueWake.NoWakeIsLost` | src/queue/QueueService.ts:393-405 | with no delete, reset, dispose or database lock, in every reachable interleaving a queue woken since its last drain start has a scheduled callback or a running drain with the flag set |
| `QueueWake.WakeLostIff` | src/queue/QueueService.ts:337-342 | one action forgets the wake of a served queue if and only if it is the only callback firing without a database, or a delete, reset or dispose while no callback is scheduled |
| `QueueWake.FlagsAreBacked` | src/queue/QueueService.ts:653-661 | in every reachable interleaving, deletes, resets and disposals included, a set flag has a scheduled callback or a running drain |
| `QueueWake.FlagIsCleared` | src/queue/QueueService.ts:707-713 | whichever of the two comes first clears the flag or turns it into a callback |
| `QueueWake.BurstsEnd` | src/queue/QueueService.ts:653-714 | without new wakes of a queue its callbacks and drains take at most as many turns as a measure of its state, whatever else happens, overlapping drains included |
| `QueueWake.WorkDecreases` | src/queue/QueueService.ts:653-714 | that measure strictly decreases at every callback that fires and every drain that finishes |
| `QueueWake.TokensDecrease` | src/queue/QueueService.ts:653-714 | while drains do not overlap, 3 per callback and 4 or 2 per drain with or without the flag strictly decreases |
| `QueueWake.QuiescentOwesNothing` | src/queue/QueueService.ts:393-405 | once a queue has nothing scheduled and nothing running, no wake of it is outstanding |
| `QueueWake.EarliestTargetWins` | src/queue/QueueService.ts:786-811 | between two firings the delayed timer is armed for the least of all requested targets |
| `QueueService.Coordination.WakeWorker` | src/queue/QueueService.ts:393-405 | schedules one callback unless the flag is already set, and nothing after a disposal |
| `QueueService.Coordination.OnImmediate` | src/queue/QueueService.ts:400-404 | the callback clears the flag and drains unless the service is disposed or the database away |
| `QueueService.Coordination.DrainQueue` | src/queue/QueueService.ts:653-661 | starts a drain, or sets the flag when one is running |
| `QueueService.Coordination.DrainFinally` | src/queue/QueueService.ts:707-713 | ends a drain and wakes again when the flag is set |
| `QueueService.Coordination.DeleteQueue` | src/queue/QueueService.ts:337-342 | forgets the queue in both sets and leaves callbacks and drains as they are |
| `QueueService.Coordination.ResetAfterRestore` | src/queue/QueueService.ts:180-187 | empties both sets, revives the service and disarms the timer |
| `QueueService.Coordination.Dispose` | src/queue/QueueService.ts:828-838 | empties both sets and disarms the timer, whose target stays behind |
| `QueueService.Coordination.ScheduleDelayedAt` | src/queue/QueueService.ts:786-811 | keeps an armed timer with an earlier target and replaces it otherwise, also after a disposal left a stale target |
| `CsvHelper.RoundTripIff` | src/records/CsvHelper.ts:71-196 | for every header list, all string items and every one-character delimiter: reading what was printed gives the header row and the data rows back if and only if the table is none of the corner cases |
| `CsvHelper.RoundTrip` | src/records/CsvHelper.ts:71-196 | in particular with two columns or more and any delimiter but a quote or a carriage return |
| `CsvHelper.TableRoundTripIff` | src/records/CsvHelper.ts:71-148 | the same for any rectangular table |
| `CsvHelper.ReadRow` | src/records/CsvHelper.ts:81-133 | the reader collects exactly the cells of a printed row, whatever they contain |
| `CsvHelper.ReturnSplitsLineEnd` | src/records/CsvHelper.ts:107-116 | with a carriage return as the delimiter, the line end after the first row reads as one more cell |
| `CsvHelper.BlankEndIff` | src/records/CsvHelper.ts:139-145 | the last row is removed as a blank line exactly when it is one empty cell and not the only row |
| `CsvHelper.ParseRawRows` | src/records/CsvHelper.ts:71-148 | the character loop computes the rows of the state machine |
| `CsvHelper.Serialize` | src/records/CsvHelper.ts:183-196 | the printer's loop produces the text of the table |
| `CsvHelper.DetectsIff` | src/records/CsvHelper.ts:9-30 | the delimiter is recovered from a printed table without line breaks in its headers if and only if the other two characters do not outnumber it in plain headers; a byte-order mark changes nothing |
| `CsvHelper.DetectDelimiter` | src/records/CsvHelper.ts:9-30 | the counting loop chooses by the occurrences outside quotes in the first line |
| `Crc.Crc32.Compute` | src/records/FakerEngine.ts:12-25 | for every byte buffer the table-driven loop returns the bit-serial CRC-32 of section 3.4 of RFC 2083, and fills its table once |
| `Crc.Crc32.FillTable` | src/records/FakerEngine.ts:15-21 | every table entry is eight turns of its index |
| `Crc.LookupFeedsByte` | src/records/FakerEngine.ts:23 | one table lookup feeds a whole byte: it equals eight bit steps of the reference |
| `Crc.EightTurnsLookUp` | src/records/FakerEngine.ts:18-23 | eight turns of a word are the table entry of its low byte and the word shifted by eight |
| `Crc.OneDamagedByteShows` | src/records/FakerEngine.ts:12-25 | two buffers that differ in one byte at most and have the same checksum are equal |
| `Png.RoundTripIff` | src/records/FakerEngine.ts:27-35 | a concatenation of chunks parses back into the same list of types and data, with valid lengths and checksums, if and only if every type is four one-byte characters |
| `Png.MakePngChunk` | src/records/FakerEngine.ts:27-35 | writes length, type, data and checksum, or fails when the length does not fit four bytes |
| `Png.TakeFramed` | src/records/FakerEngine.ts:27-35 | a reader takes a chunk off the front of any byte string and goes on behind it |
| `Png.LengthDigits` | src/records/FakerEngine.ts:28-29 | the first four bytes are the number of data bytes in base 256, highest digit first |
| `Png.Take` | src/records/FakerEngine.ts:27-35 | what is read off is shorter than what was there and has a type of four one-byte characters |
| `FlowValidator.ValidatedStraysOnlyThroughCatches` | src/flows/FlowValidator.ts:6-26 | in every run of every accepted flow, at any nesting depth, a state is missing only under a name that a catch policy of that very flow or sub-flow gives and that it does not declare |
| `FlowValidator.ValidatedNeverStuck` | src/flows/FlowValidator.ts:6-26 | so no state is missing at all if the catch policies lead to declared states |
| `FlowValidator.RunStraysOnly` | src/flows/FlowEngine.ts:163-166 | the same from every name the loop can stand at, which is declared, given by a catch policy of the flow, or empty |
| `FlowValidator.HandleStraysOnly` | src/flows/FlowValidator.ts:112-247 | the handlers of an accepted state answer only with declared states, and their sub-flows stray only in their own scopes |
| `FlowValidator.CatchCanGetStuck` | src/flows/FlowValidator.ts:112-247 | a concrete accepted flow whose catch policy leads nowhere gets stuck |
| `FlowValidator.StrayingIsAccepted` | src/flows/FlowValidator.ts:112-247 | and validation accepts it |
| `FlowValidator.ExactlyOneWayOn` | src/flows/FlowValidator.ts:126-247 | every accepted Task, Map, Loop, Pass, Wait or Parallel state has exactly one of next and end |
| `FlowReferences.ScanStates` | src/flows/FlowValidator.ts:449-466 | the scan adds exactly the trimmed, non-blank callees of the tree to the set |
| `FlowReferences.RenameStates` | src/flows/FlowValidator.ts:490-507 | the renaming changes exactly the calls to the old name, at every depth, and reports whether there was one |
| `FlowReferences.EditedCallees` | src/flows/FlowValidator.ts:490-507 | after a renaming the calls of the tree are the old ones, in order, with the old name replaced |
| `FlowReferences.RenameUndoneIff` | src/flows/FlowValidator.ts:473-511 | renaming back gives the very same definition if and only if the new name was not in use |
| `FlowReferences.RenameMapsNamesIff` | src/flows/FlowValidator.ts:435-511 | extraction after renaming is the image of extraction before if and only if no reference to the old name has white space around it |
| `FlowReferences.EditedValidates` | src/flows/FlowValidator.ts:6-247 | an accepted definition is accepted again after a renaming to a name that is not blank, and after normalisation |
| `FlowRefactoring.RunEdited` | src/flows/FlowEngine.ts:146-383 | an edited flow runs, transition by transition, as the original does in any world that answers its calls as the other answers the edited ones |
| `FlowRefactoring.RenamePreservesRuns` | src/flows/runtime/StateHandlers.ts:24-54 | with tasks answered through the function table: a flow whose calls keep their function, rewritten by the cascade, runs over the renamed table as the old flow ran over the old table |
| `FlowRefactoring.RetargetedRunsDiffer` | src/flows/runtime/StateHandlers.ts:24-54 | where a call is retargeted, the flow of that one call answers differently |
| `FlowRefactoring.RecheckedRunsDiffer` | src/flows/runtime/StateHandlers.ts:24-54 | and where another function's policy is checked, it does so too, whichever function runs |
| `FlowRefactoring.NormalizationPreservesRuns` | src/flows/FlowValidator.ts:218-227 | the transitions that validation deletes from terminal states make no difference to any run |
| `FunctionService.Functions.UpdateFunction` | src/functions/FunctionService.ts:235-321 | refuses unknown ids and taken names without a trace; otherwise renames the row, the queues and every flow together |
| `FunctionService.Functions.RenameInFlows` | src/functions/FunctionService.ts:301-316 | the loop rewrites exactly the definitions that mention the old name |
| `FunctionService.Functions.DeleteFunction` | src/functions/FunctionService.ts:409-436 | an unforced deletion conflicts exactly when a flow or a queue refers to the function; otherwise only its row goes |
| `FunctionService.Functions.GetDependentFlows` | src/functions/FunctionService.ts:343-387 | the flows listed are exactly those that mention the name or the id |
| `FunctionService.Functions.GetDependentQueues` | src/functions/FunctionService.ts:392-407 | the queues listed are exactly those bound to the trimmed name or id |
| `FunctionService.RenameLeavesNothingDangling` | src/functions/FunctionService.ts:295-318 | if every reference resolves before a rename, every reference resolves after it |
| `FunctionService.RenameKeepsTargetIff` | src/functions/FunctionService.ts:466-474 | every reference, looked up by id first as calls and queues do, resolves after the cascade if it did before, and runs the same function if and only if it is not retargeted: the old name, with the old or the new name also another function's id, or a dangling reference equal to the new name |
| `FunctionService.RenameKeepsCheckIff` | src/flows/runtime/StateHandlers.ts:24-39 | the function whose policy is checked, looked up by name first, is the same if and only if the reference is not the new name in use as another function's id or dangling |
| `FunctionService.CascadeKeepsTargetsIff` | src/functions/FunctionService.ts:295-318 | over flows and queues that resolve, each call and binding goes on running the function it ran if and only if the old name is in use nowhere or neither name is another function's id |
| `FunctionService.NewNameCanBeAnId` | src/functions/FunctionService.ts:202 | an input where it fails: the new name is the id of the other function, which the rewritten call then runs |
| `FunctionService.OldNameCanBeAnId` | src/functions/FunctionService.ts:471 | and another: the old name is the id of the other function, which the call meant |
| `FunctionService.UnforcedDeletionStrandsNobody` | src/functions/FunctionService.ts:409-436 | an unforced deletion that goes through leaves everything resolvable, if name and id are each visible to the checks or answered by another function |
| `FunctionService.DeletionIsSafeIff` | src/functions/FunctionService.ts:409-436 | no flows and queues can let a deletion through and be stranded by it if and only if that holds |
| `FunctionService.DeletionStrandsIff` | src/functions/FunctionService.ts:433-435 | a deletion takes a reference's answer away exactly when it is the function's name or id and no other function answers |
| `FunctionService.UncoveredNameStrands` | src/functions/FunctionService.ts:392-407 | if it does not, a queue bound to the blank or padded name or id is not seen by the check and is left dangling |
| `TokenCache.CachedChecksAgreeWithStorage` | src/auth/AuthService.ts:160-225 | over any sequence of checks, revocations, password changes with any steps between their two stretches, and accounts created, updated and deleted, the next check decides as if it read the stored key, and the cache never exceeds 5000 entries |
| `TokenCache.VerifyDecidesAsStorage` | src/auth/AuthService.ts:160-225 | with cache and tables in agreement a check decides as the tables do and keeps them in agreement, expired entries or not |
| `TokenCache.RevokeAgreesIff` | src/auth/AuthService.ts:418-445 | after a revocation the cache agrees with the tables if and only if no second account answered to the same id or e-mail address and was cached |
| `TokenCache.PasswordChangeAgreesIff` | src/auth/AuthService.ts:340-368 | after the second stretch of a password change, in any state, it agrees if and only if whoever has the address by then is the admin found before the await, or is not cached |
| `TokenCache.HolderStays` | src/auth/AuthService.ts:340-368 | in every run of the service that admin still has the address |
| `TokenCache.MovedAddressLeavesStale` | src/auth/AuthService.ts:361-367 | a concrete interleaving in which something else moves the address in between: a revoked key goes on being accepted |
| `TokenCache.PutEvictsLeastRecentlyUsed` | src/auth/AuthService.ts:108-118 | an insertion keeps the cache in the order of last use, and what it evicts was used before everything that stays |
| `TokenCache.GetKeepsOrder` | src/auth/AuthService.ts:95-106 | a hit moves its entry to the recent end, and a miss or an expiry keeps the order |
| `TokenCache.PutShaped` | src/auth/AuthService.ts:108-118 | an insertion keeps one entry a key and the size within 5000 |
| `TokenCache.DeleteKeeps` | src/auth/AuthService.ts:86-92 | a deleted account leaves no entry behind |
| `TokenCache.KeysAreInjective` | src/auth/AuthService.ts:174-202 | a cache key names one account, because collection names have no colon |
| `AuthService.TokenKeys.GetCachedTokenKey` | src/auth/AuthService.ts:95-106 | returns the key unless it is absent or expired, and reorders or removes its entry |
| `AuthService.TokenKeys.SetCachedTokenKey` | src/auth/AuthService.ts:108-118 | stores the key at the recent end and evicts the first entry when the cache is full |
| `AuthService.TokenKeys.VerifyToken` | src/auth/AuthService.ts:160-225 | accepts exactly what the tables would accept, through the cache |
| `AuthService.TokenKeys.InvalidateTokenCache` | src/auth/AuthService.ts:120-137 | removes one entry, or every entry of a collection |
| `AuthService.TokenKeys.RevokeSessions` | src/auth/AuthService.ts:418-445 | gives every matching account the new key and drops the entry of the first |
| `AuthService.TokenKeys.BeginPasswordUpdate` | src/auth/AuthService.ts:340-350 | looks the admin up by address and refuses unknown ones and short passwords; the change then waits for its hash |
| `AuthService.TokenKeys.FinishPasswordUpdate` | src/auth/AuthService.ts:351-368 | gives whoever has the address the new key and drops the entry of the admin found before |

## Left out

- ListFilter.CompilerPreservesMeaning: is about rules whose row-level comparisons have an allowed column on the left and a literal, number, keyword or request value on the right, without `!~` and without a column that listing may not use; the code drops a column on the right and evaluates `!~` differently in the two places. Both comparators are opaque and are taken to agree on the compared values, `~` excepted, for which the exact condition is proved. ExpressionSound, LeafSound and UserFilter.ListRequestIsExact share this.
- UserFilter.UserFilterOnlyNarrows: is about balanced user filters; `UserFilter.WidensIffEscapes` is about every user filter.
- FlowInterpreter.HandleSubFlows: runs sub-flows one after another and stops at the first that fails, so that a run is a function; `FlowSchedule` bounds the interleaved runs, whose results are not modelled.
- FlowInterpreter.HandleState: the same, for the sub-flows of its state.
- FlowBounds.RunSpends: is about that sequential order; `FlowSchedule.InterleavedIsBounded` is about every order.
- FlowBudget.RunLowered: is about that sequential order.
- FlowBudget.RunSucceedsWithin: is about that sequential order, and about flows in which no blank catch policy takes the error of the limit.
- FlowEngine.Run: has no deadline, step timer or cancellation signal. What they do to an execution is in the service model, where a step may be cut short and a runner may end in a timeout, a cancellation or a failure at any point.
- FlowEngine.Step: the same.
- FlowInterpreter.Execute: the same, for the loop.
- FlowInterpreter.Turn: the same, for the checks at the top of the loop.
- FlowInterpreter.Settle: the same, for timeouts and cancellations of a step.
- FlowInterpreter.ExecuteWithRetry: the same; the wait between two attempts is left out as well.
- FlowResume.ResumeEqualsUninterrupted: speaks of checkpoints reported as transitions; the checkpoint that the engine builds in its outermost catch can pair a new state with the previous input and is arbitrary here.
- ExecutionDurability.DurableExecution: is about runs that succeed within the step limit, at a named state and with defined payloads; it excludes aborting, clearing, database failures, timeouts and edits of the flow for the execution it is about, and allows them for all others; for an execution without an input it also excludes starting it afresh with the null of its row.
- ExecutionSafety.HistoryIsAppendOnly: leaves out the rollback of a failed dispatch, which can put an earlier history back.
- ExecutionSafety.OneRunnerPerExecution: is about one process; startup recovery of a second process on the same database releases the claims of the first. Generated execution ids are taken to be new.
- ExecutionProtocol: a crash falls between two stretches, not between two statements of one. Waiters, durations, error texts and actors are not columns of the model.
- QueueWake.NoWakeIsLost: the queue driver is not part of this model, so nothing is said about leases, retries or dead letters.
- CsvHelper.RoundTripIff: items hold strings; booleans, numbers and objects are printed as text and come back as text. `parse`, which trims the text and keys rows by header, is left out.
- Png.MakePngChunk: accepts lengths up to 32 bits as the code does; RFC 2083 allows 31.
- FlowValidator.ValidatedNeverStuck: the checks of paths, numeric limits and choice operators are left out; they only make validation stricter. Events, triggers and concurrency limits are not modelled.
- FlowReferences.RenameStates: returns the changed definition instead of changing a tree in place.
- FunctionService.Functions.UpdateFunction: the other columns of a function, malformed flow definitions and missing tables are left out; lower-casing is a parameter.
- AuthService.TokenKeys.VerifyToken: takes a decoded token; signatures, the admin registry and the copy it keeps are left out.
- TokenCache.CachedChecksAgreeWithStorage: the events that invalidate an updated or deleted record are taken to run in the stretch that writes it, and `_admins` to be written by the service alone.
- The sort parser and the rule builder of the admin interface: they would add easy members only.
- HTTP, administration, plugins, events, snapshots, file storage, hashing, mock data and image pixels: plumbing around what is modelled.
- Characters are Unicode scalars where JavaScript has 16-bit units; no branch of the modelled code tells them apart.
