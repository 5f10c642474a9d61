# Bagana AI dashboard: campaign and research lifecycles in Dafny

This project models the logic of the Bagana AI campaign-planning dashboard and of its
companion research-workflow dashboard. Both front ends follow the same pattern:

- a form validates its fields and calls a start service;
- a context reducer moves a run through the phases `idle`, `running`, `done` and `error`;
- the provider polls a status service and saves finished results to a bounded history in local storage;
- display components classify and export the results.

The model covers six parts.

- **Reducers** (`CampaignContext`, `WorkflowContext`). `campaignReducer` and `workflowReducer` are pure functions over datatypes.
  - It is proved that every reachable state is consistent: idle has no id, brief, results or error, running has an id, done has results, error has a message.
  - It is proved what each action changes and what it keeps. Starting a new run does not clear the previous results.
- **Providers.** Each provider is a class.
  - `Dispatch` runs the reducer and records the action.
  - `PollCampaignStatus` is the loop that announces the four agents, then acts on the status reply. `PollRunStatus` is the research counterpart.
  - Each poll method is proved against a trace function: the exact actions it dispatches and the state it leaves.
  - The auto-poll effect's condition and its dependency list are modelled as well.
- **History** (`History`). `saveToHistory` and `getHistory` are methods of a `HistoryStore` class that holds one storage slot.
  - The slot can be missing, blank, unparsable or a list.
  - The newest result goes to the front and the list is cut to 20 entries (campaigns) or 10 (research runs).
  - For any run of saves, the log is the newest `capacity` results, newest first.
- **Forms** (`BriefFormComponent`, `InputComponent`, `FieldRules`).
  - Validation is a method that fills an error record field by field. It is proved to record exactly one error per broken field, in the order required, then too short, then too long, and to accept exactly the valid briefs.
  - The KPI and platform toggles are modelled with their own properties.
  - The submit handlers are methods. Each either calls the start service and dispatches START or ERROR, or does nothing when the form is invalid.
- **Display helpers** (`RecommendationsView`, `StatusDisplay`, `StateBadge`):
  - the duration text, the fit-score and confidence bands, and the badge colours and labels;
  - the agent-step lookup and the active/completed classification;
  - the CSV rows, with a CSV reader in the sense of section 2 of RFC 4180 against which the export is checked;
  - the expand toggle.
- **Context bindings** (`ContextBinding`). This module gives the JavaScript value each component binds when it destructures the context, both as the code is written and as it is evidently meant (see Findings).

The backend services are oracles: a start call gives an id or throws, and a status call gives a status with optional results or throws (`Lifecycle.StartReply`, `Lifecycle.StatusReply`). `parseFloat` of the budget is a parameter of type `CampaignTypes.Number` (finite, infinite or NaN). The text of `confidence.toString()` is a function parameter.

Where the code differs from the documented design, the model follows the code:

- START_CAMPAIGN and START_RUN keep the previous `results`. A running state can therefore carry stale results (`CampaignContext.RunningWithStaleResults`).
- The budget rule is `budget && parseFloat(budget) <= 0`. A budget text that parses to NaN passes validation. Only a finite non-positive number, or negative infinity, is rejected.
- The poll guard tests the id for truthiness, so an empty id never polls. It is not a null check.
- `getHistory` treats a missing key and an empty string as an empty list. Text that does not parse makes it throw (`Listed` gives `Err`); it does not fall back to empty.
- `saveToHistory` runs inside the poll's `try` block. A history slot that does not parse therefore turns a completed poll into COMPLETE followed by ERROR carrying the parse message.
- A status reply that is neither `done` with results nor `error` dispatches no terminal action. Because the effect's dependencies are then unchanged, no further poll is scheduled (`UnfinishedPollIsNotRepeated`).

## Model

| member | source | states |
|---|---|---|
| Lifecycle.PhaseLiteral | src/types/campaign.ts:1 | definition: the string literal of each phase; distinctness in PhaseLiteralInjective |
| Lifecycle.MessageOr | src/context/CampaignContext.tsx:92-97 | definition of `error instanceof Error ? error.message : fallback`; used by every catch block, as PollOutcome and HandleSubmit state |
| Lifecycle.PhaseLiteralInjective | src/types/campaign.ts:1 | the four phase literals are pairwise different strings |
| Text.Trim | src/components/CampaignBriefForm.tsx:31-33 | definition of `s.trim()` (TrimStart then TrimEnd); characterised by TrimIsInner and TrimEmptyIff |
| Text.TrimStartDrops | src/components/CampaignBriefForm.tsx:31-33 | trimming the start removes exactly a whitespace prefix and leaves a string that is empty or starts with non-whitespace |
| Text.TrimEndDrops | src/components/CampaignBriefForm.tsx:31-33 | trimming the end removes exactly a whitespace suffix and leaves a string that is empty or ends with non-whitespace |
| Text.TrimIsInner | src/components/CampaignBriefForm.tsx:33 | `trim()` is a contiguous slice of the input, with whitespace only outside it and non-whitespace at both of its ends |
| Text.TrimEmptyIff | src/components/CampaignBriefForm.tsx:31 | `!s.trim()` holds exactly when every character of s is whitespace |
| Text.IntString | src/components/RecommendationsDisplay.tsx:40 | the decimal text of an integer is non-empty and made of digits and '-' |
| Text.DigitsValueOfNatDigits | src/components/RecommendationsDisplay.tsx:19 | the digits written for a natural number read back as that number |
| Text.IntStringRoundTrip | src/components/RecommendationsDisplay.tsx:19 | the decimal text of any integer is well formed and reads back as that integer |
| History.Take | src/context/CampaignContext.tsx:132 | `slice(0, n)` keeps a prefix of at most n entries, and all of them when there are fewer |
| History.Pushed | src/context/CampaignContext.tsx:128-132 | after unshift and slice: the new result at the head, the length is min(old + 1, capacity), and the older entries are shifted by one in their old order |
| History.Listed | src/context/CampaignContext.tsx:138-142 | missing and empty slots list as [], a stored list as itself, and unparsable text throws (Err) |
| History.Saved | src/context/CampaignContext.tsx:123-135 | definition: the slot after saveToHistory, unchanged when parsing throws; Save is proved to produce it, ListAfterSave and SavedStaysBounded state its properties |
| History.HistoryStore.constructor | src/context/CampaignContext.tsx:123-126 | the slot starts as the page finds it, with the given capacity |
| History.HistoryStore.Save | src/context/CampaignContext.tsx:123-135 | throws (nothing written) exactly when the slot is unparsable; otherwise it writes the pushed, truncated log |
| History.HistoryStore.GetHistory | src/context/CampaignContext.tsx:138-142 | a read that changes nothing and returns the listed slot, so two reads with no save between agree |
| History.ListAfterSave | src/context/WorkflowContext.tsx:104-123 | after a save that did not throw, getHistory gives the pushed log: the new result first and at most capacity entries |
| History.SavedStaysBounded | src/context/WorkflowContext.tsx:112-113 | a log within capacity stays within capacity after a save |
| History.PushAllKeepsNewest | src/context/CampaignContext.tsx:123-135 | after any run of saves the log is the first capacity entries of (saved results newest first) followed by the old log |
| History.OverflowEvictsOldest | src/context/CampaignContext.tsx:131-132 | saving capacity + 1 results into an empty log keeps exactly capacity entries, newest first, and evicts the first result |
| Dispatching.Fold | src/context/CampaignContext.tsx:64 | definition: dispatching a sequence of actions into a reducer, in order |
| Dispatching.FoldOne | src/context/CampaignContext.tsx:64 | dispatching one action is one reducer step |
| Dispatching.FoldTwo | src/context/CampaignContext.tsx:64 | dispatching two actions is two reducer steps in order |
| Dispatching.FoldConcat | src/context/CampaignContext.tsx:64 | dispatching two action sequences one after the other is dispatching their concatenation |
| CampaignContext.Reduce | src/context/CampaignContext.tsx:14-53 | every action maps a consistent state to a consistent state |
| CampaignContext.RunActions | src/context/CampaignContext.tsx:14-53 | definition: campaignReducer folded over a sequence of actions |
| CampaignContext.ReachableIsConsistent | src/context/CampaignContext.tsx:5-53 | every state reachable from initialState by dispatches is consistent |
| CampaignContext.ResetRestoresInitial | src/context/CampaignContext.tsx:48-49 | RESET gives idle with no id, brief, results, error or agent |
| CampaignContext.StartCampaignEffect | src/context/CampaignContext.tsx:19-27 | START_CAMPAIGN: running, id and brief recorded, error and agent cleared, results kept |
| CampaignContext.UpdateProgressOnlyMovesAgent | src/context/CampaignContext.tsx:28-32 | UPDATE_PROGRESS sets the agent and leaves every other field unchanged |
| CampaignContext.CompleteEffect | src/context/CampaignContext.tsx:33-40 | CAMPAIGN_COMPLETE: done with the results, error and agent cleared, id and brief kept |
| CampaignContext.ErrorEffect | src/context/CampaignContext.tsx:41-47 | CAMPAIGN_ERROR: error with the message, agent cleared, results, id and brief kept |
| CampaignContext.RunningWithStaleResults | src/context/CampaignContext.tsx:19-27 | complete then start gives a running state that still holds the old results |
| CampaignContext.Outcome | src/context/CampaignContext.tsx:83-97 | definition: what the poll dispatches after the loop for each reply and slot; shape in PollTraceShape, effect in PollOutcome |
| CampaignContext.PollTrace | src/context/CampaignContext.tsx:75-98 | definition: the progress actions followed by the outcome; PollCampaignStatus is proved to dispatch exactly this |
| CampaignContext.SlotAfterPoll | src/context/CampaignContext.tsx:85-88 | definition: the history slot is saved to only on done with results; PollCampaignStatus is proved to leave exactly this |
| CampaignContext.ProgressActions | src/context/CampaignContext.tsx:67-81 | the progress loop dispatches one UPDATE_PROGRESS per agent, in the order of agentSteps |
| CampaignContext.PollTraceShape | src/context/CampaignContext.tsx:75-98 | a poll dispatches the four agents in order, then at most two terminal actions: none exactly for a reply that is neither done-with-results nor error, two exactly when saving throws |
| CampaignContext.ProgressOnlyMovesAgent | src/context/CampaignContext.tsx:78-81 | the progress loop leaves the state as it was except that the agent is "Performance Agent" |
| CampaignContext.PollOutcome | src/context/CampaignContext.tsx:75-98 | where a poll leaves the state: a throw gives error with its message or "Unknown error"; an error status gives error with "Campaign planning workflow failed"; done with results gives done with those results, at the head of the history (or error with the parse message when saving throws); anything else leaves phase, results and error unchanged |
| CampaignContext.PollGuard | src/context/CampaignContext.tsx:101-105 | definition of the effect condition `state.state === 'running' && state.campaignId`; properties in StartSchedulesPoll and LeavingRunningStopsPolling |
| CampaignContext.PollDeps | src/context/CampaignContext.tsx:101-105 | definition of the effect dependency list `[state.state, state.campaignId]`; properties in UnfinishedPollIsNotRepeated |
| CampaignContext.StartSchedulesPoll | src/context/CampaignContext.tsx:101-105 | after START_CAMPAIGN the effect dependencies are (running, id), and it polls exactly when the id is non-empty |
| CampaignContext.LeavingRunningStopsPolling | src/context/CampaignContext.tsx:101-105 | after COMPLETE, ERROR or RESET the effect does not poll |
| CampaignContext.UnfinishedPollIsNotRepeated | src/context/CampaignContext.tsx:83-105 | a reply that is neither done-with-results nor error leaves the effect dependencies and the guard unchanged |
| CampaignContext.CampaignProvider.constructor | src/context/CampaignContext.tsx:64 | the provider starts at initialState with nothing dispatched |
| CampaignContext.CampaignProvider.Dispatch | src/context/CampaignContext.tsx:64 | the state becomes the reducer's result and the action is appended to the dispatch log |
| CampaignContext.CampaignProvider.PollCampaignStatus | src/context/CampaignContext.tsx:75-98 | dispatches exactly the poll trace, leaves the state the trace reaches, and saves to the history only on done with results |
| WorkflowContext.RunActions | src/context/WorkflowContext.tsx:13-44 | definition: workflowReducer folded over a sequence of actions |
| WorkflowContext.Reduce | src/context/WorkflowContext.tsx:13-44 | every action maps a consistent state to a consistent state |
| WorkflowContext.ReachableIsConsistent | src/context/WorkflowContext.tsx:5-44 | every state reachable from initialState is consistent |
| WorkflowContext.ResetRestoresInitial | src/context/WorkflowContext.tsx:39-40 | RESET gives idle with no run id, input, results or error |
| WorkflowContext.StartRunEffect | src/context/WorkflowContext.tsx:18-25 | START_RUN: running, run id and input recorded, error cleared, results kept |
| WorkflowContext.CompleteEffect | src/context/WorkflowContext.tsx:26-32 | RUN_COMPLETE: done with the results, error cleared, run id and input kept |
| WorkflowContext.ErrorEffect | src/context/WorkflowContext.tsx:33-38 | RUN_ERROR: error with the message, results, run id and input kept |
| WorkflowContext.PollTrace | src/context/WorkflowContext.tsx:58-75 | definition: the actions one poll dispatches for each reply and slot; PollRunStatus is proved to dispatch exactly this |
| WorkflowContext.SlotAfterPoll | src/context/WorkflowContext.tsx:62-65 | definition: the history slot is saved to only on done with results |
| WorkflowContext.PollOutcome | src/context/WorkflowContext.tsx:58-75 | a throw gives error with its message or "Unknown error"; an error status gives error with "Workflow execution failed"; done with results gives done with them at the head of the history (or error when saving throws); anything else dispatches nothing |
| WorkflowContext.PollGuard | src/context/WorkflowContext.tsx:78-86 | definition of the effect condition `state.state === 'running' && state.runId`; properties in StartSchedulesPoll and LeavingRunningStopsPolling |
| WorkflowContext.PollDeps | src/context/WorkflowContext.tsx:78-86 | definition of the dependency list `[state.state, state.runId]`; properties in UnfinishedPollIsNotRepeated |
| WorkflowContext.StartSchedulesPoll | src/context/WorkflowContext.tsx:78-86 | after START_RUN the effect dependencies are (running, id), and it polls exactly when the id is non-empty |
| WorkflowContext.LeavingRunningStopsPolling | src/context/WorkflowContext.tsx:78-86 | after RUN_COMPLETE, RUN_ERROR or RESET the effect does not poll |
| WorkflowContext.UnfinishedPollIsNotRepeated | src/context/WorkflowContext.tsx:58-86 | a reply that is neither done-with-results nor error leaves the dependencies and the guard unchanged |
| WorkflowContext.WorkflowProvider.constructor | src/context/WorkflowContext.tsx:55 | the provider starts at initialState with nothing dispatched |
| WorkflowContext.WorkflowProvider.Dispatch | src/context/WorkflowContext.tsx:55 | the state becomes the reducer's result and the action is appended to the dispatch log |
| WorkflowContext.WorkflowProvider.PollRunStatus | src/context/WorkflowContext.tsx:58-75 | dispatches exactly the poll trace and saves to the history only on done with results |
| ContextBinding.StrictEquals | src/components/CampaignBriefForm.tsx:26 | definition of `v === literal`: only a string with the same characters is equal |
| ContextBinding.Truthy | src/components/RecommendationsDisplay.tsx:9 | definition of JavaScript truthiness for objects, strings, null and undefined |
| ContextBinding.DisabledWhen | src/components/CampaignBriefForm.tsx:26 | definition of `isDisabled = state === 'running'`, shared by both forms; see NeverDisabledAsWritten and DisabledIffRunning |
| ContextBinding.CampaignBindingAsWritten | src/components/CampaignBriefForm.tsx:16 | definition: `const { name } = useCampaign()` binds the context value's property |
| ContextBinding.CampaignBinding | src/components/CampaignBriefForm.tsx:16 | definition: the binding the components evidently mean, the phase literal and the record's fields |
| ContextBinding.AgentOf | src/components/WorkflowStatusDisplay.tsx:12 | definition: the current agent as read from the bound value |
| ContextBinding.WorkflowBindingAsWritten | src/components/InputSection.tsx:7 | definition: `const { name } = useWorkflow()` binds the context value's property |
| ContextBinding.WorkflowBinding | src/components/InputSection.tsx:7 | definition: the binding the research form evidently means |
| ContextBinding.CampaignContextProperty | src/context/CampaignContext.tsx:108 | the context value's `state` property is an object (the whole record); names it does not have are undefined |
| ContextBinding.WorkflowContextProperty | src/context/WorkflowContext.tsx:89 | the context value's `state` property is an object (the whole record) |
| ContextBinding.PhaseComparison | src/components/CampaignBriefForm.tsx:26 | comparing the phase literal with another phase's literal by `===` is comparing the phases |
| FieldRules.TextFieldError | src/components/CampaignBriefForm.tsx:31-45 | definition of one free-text rule block: required, then minimum on the trimmed text, then maximum on the raw text; characterised by TextFieldErrorRules |
| FieldRules.TextAccepted | src/components/InputSection.tsx:18-24 | definition: the field is not blank, long enough trimmed and short enough as typed; related to TextFieldError by TextFieldErrorRules |
| FieldRules.TextFieldErrorRules | src/components/CampaignBriefForm.tsx:31-45 | a text field has no error exactly when it is non-blank, long enough trimmed and short enough raw; otherwise it gets the first broken rule's message |
| BriefFormComponent.MessageText | src/components/CampaignBriefForm.tsx:31-56 | definition: the text of each validation message |
| BriefFormComponent.BriefIsValid | src/components/CampaignBriefForm.tsx:28-61 | definition: the five conditions of a valid brief; Validate is proved to succeed exactly for them |
| BriefFormComponent.CheckTextField | src/components/CampaignBriefForm.tsx:31-37 | one if/else-if block records the field's error under its key, or leaves the record as it was |
| BriefFormComponent.Validate | src/components/CampaignBriefForm.tsx:28-61 | the record holds exactly each field's error; the result is true exactly when the record is empty, which is exactly when the brief is valid |
| BriefFormComponent.NoErrorsIffValid | src/components/CampaignBriefForm.tsx:28-61 | a record that describes the form is empty exactly when all five conditions hold |
| BriefFormComponent.NoErrorsIffNoLookups | src/components/CampaignBriefForm.tsx:60 | the record is empty exactly when none of the five keys is set |
| BriefFormComponent.NoKeysIffEmpty | src/components/CampaignBriefForm.tsx:60 | `Object.keys(r).length === 0` exactly for the empty record |
| BriefFormComponent.BriefOf | src/components/CampaignBriefForm.tsx:87-95 | the brief carries the form's fields, and its budget is absent exactly when the budget text is empty |
| BriefFormComponent.Without | src/components/CampaignBriefForm.tsx:66 | filtering removes every occurrence of the item and keeps every other item with its multiplicity |
| BriefFormComponent.WithoutConcat | src/components/CampaignBriefForm.tsx:66 | filtering distributes over concatenation, so the order is kept |
| BriefFormComponent.WithoutAbsent | src/components/CampaignBriefForm.tsx:66 | filtering out an absent item changes nothing |
| BriefFormComponent.Toggle | src/components/CampaignBriefForm.tsx:63-77 | afterwards the item is present exactly when it was absent, and every other item's presence is unchanged |
| BriefFormComponent.ToggleTwiceRestores | src/components/CampaignBriefForm.tsx:63-69 | toggling an absent item twice restores the list exactly |
| BriefFormComponent.ToggleTwiceMovesToEnd | src/components/CampaignBriefForm.tsx:63-69 | toggling a present item twice moves it to the end, after the others in their order |
| BriefFormComponent.ToggleKeepsDistinct | src/components/CampaignBriefForm.tsx:63-77 | a list without duplicates keeps that property under toggles |
| BriefFormComponent.WithoutSublist | src/components/CampaignBriefForm.tsx:66 | filtering a list without duplicates gives a list without duplicates |
| BriefFormComponent.IsDisabledAsWritten | src/components/CampaignBriefForm.tsx:16-26 | definition: isDisabled with the context value's `state` property bound |
| BriefFormComponent.IsDisabled | src/components/CampaignBriefForm.tsx:26 | definition: isDisabled with the phase bound; see DisabledIffRunning |
| BriefFormComponent.NeverDisabledAsWritten | src/components/CampaignBriefForm.tsx:16-26 | as written, isDisabled is false in every state, and differs from the intended value while running |
| BriefFormComponent.DisabledIffRunning | src/components/CampaignBriefForm.tsx:26 | with the phase bound to `state`, the form is disabled exactly while running |
| BriefFormComponent.CampaignBriefForm.constructor | src/components/CampaignBriefForm.tsx:17-24 | empty fields, scope "Market Analysis", depth "Standard", no errors |
| BriefFormComponent.CampaignBriefForm.HandleKpiChange | src/components/CampaignBriefForm.tsx:63-69 | the KPI list becomes its toggle by the clicked KPI |
| BriefFormComponent.CampaignBriefForm.HandlePlatformChange | src/components/CampaignBriefForm.tsx:71-77 | the platform list becomes its toggle by the clicked platform |
| BriefFormComponent.CampaignBriefForm.HandleSubmit | src/components/CampaignBriefForm.tsx:79-120 | errors are recorded; the service is called exactly for a valid brief; an invalid one dispatches nothing and keeps the fields; a start dispatches START_CAMPAIGN(id, brief) and resets the form; a throw dispatches CAMPAIGN_ERROR with its message or "Failed to start campaign planning" and keeps the fields |
| InputComponent.MessageText | src/components/InputSection.tsx:18-24 | definition: the text of each query message |
| InputComponent.Validate | src/components/InputSection.tsx:15-28 | the error is the query's first broken rule; the result is true exactly when there is none, exactly for non-blank queries of trimmed length ≥ 10 and raw length ≤ 500 |
| InputComponent.IsDisabledAsWritten | src/components/InputSection.tsx:7-13 | definition: isDisabled with the context value's `state` property bound |
| InputComponent.IsDisabled | src/components/InputSection.tsx:13 | definition: isDisabled with the phase bound; see DisabledIffRunning |
| InputComponent.NeverDisabledAsWritten | src/components/InputSection.tsx:7-13 | as written, isDisabled is false in every state |
| InputComponent.DisabledIffRunning | src/components/InputSection.tsx:13 | with the phase bound to `state`, input is disabled exactly while running |
| InputComponent.InputSection.constructor | src/components/InputSection.tsx:8-11 | query "", scope "Market Analysis", depth "Standard", no error |
| InputComponent.InputSection.HandleSubmit | src/components/InputSection.tsx:30-57 | the service is called exactly for a valid query; a start dispatches START_RUN(id, {query, scope, depth}) and resets the form; a throw dispatches RUN_ERROR with its message or "Failed to start workflow"; an invalid query dispatches nothing |
| StateBadge.PhaseColor | src/components/InputSection.tsx:59-72 | definition: the class string each phase's case returns; distinctness in PhaseColorInjective |
| StateBadge.StateColor | src/components/InputSection.tsx:59-72 | any value that is not a string gets the grey default |
| StateBadge.StateColorOfPhase | src/components/InputSection.tsx:59-72 | each phase literal gets its own phase's colour |
| StateBadge.PhaseColorInjective | src/components/InputSection.tsx:59-72 | the four phases get four different class strings |
| StateBadge.StateColorAsWrittenIsGrey | src/components/CampaignBriefForm.tsx:122-141 | as written, both forms' badges are grey in every state |
| StateBadge.UpperAscii | src/components/CampaignBriefForm.tsx:142 | lower-case ASCII letters become upper case and other characters are kept |
| StateBadge.Capitalize | src/components/CampaignBriefForm.tsx:142 | same length, first character upper-cased, the rest unchanged |
| StateBadge.BadgeLabel | src/components/CampaignBriefForm.tsx:142 | the label is computed exactly for string values; anything else throws |
| StateBadge.BadgeLabelOfPhase | src/components/InputSection.tsx:79 | each phase literal is labelled with the phase's name in title case |
| StateBadge.BadgeLabelAsWrittenThrows | src/components/InputSection.tsx:79 | as written, computing either form's label throws a TypeError, whatever the phase |
| RecommendationsView.FormatDuration | src/components/RecommendationsDisplay.tsx:17-20 | a decimal integer followed by 's', whose value n satisfies n·1000 ≤ ms < n·1000 + 1000, that is ⌊ms/1000⌋ |
| RecommendationsView.FitScoreColor | src/components/RecommendationsDisplay.tsx:22-26 | definition of getFitScoreColor; bands in FitScoreBands, monotonicity in FitScoreMonotone |
| RecommendationsView.FitScoreBands | src/components/RecommendationsDisplay.tsx:22-26 | green exactly from 80, yellow exactly on [60, 80), orange exactly below 60 |
| RecommendationsView.FitScoreMonotone | src/components/RecommendationsDisplay.tsx:22-26 | a higher score never gets a lower band |
| RecommendationsView.LevelBadge | src/components/RecommendationsDisplay.tsx:29-31 | definition: the label and colour of each confidence level |
| RecommendationsView.ConfidenceBadge | src/components/RecommendationsDisplay.tsx:28-32 | definition of getConfidenceBadge; bands in ConfidenceBands |
| RecommendationsView.ConfidenceBands | src/components/RecommendationsDisplay.tsx:28-32 | High exactly from 0.8, Medium exactly on [0.6, 0.8), Low exactly below 0.6 |
| RecommendationsView.RecordCells | src/components/RecommendationsDisplay.tsx:37-47 | each recommendation gives nine cells, as many as the header |
| RecommendationsView.DataRows | src/components/RecommendationsDisplay.tsx:37-47 | one row per recommendation, in ranking order |
| RecommendationsView.ExportRows | src/components/RecommendationsDisplay.tsx:35-48 | 1 + n rows: the header first, then row i + 1 from recommendation i, nine cells each |
| RecommendationsView.Quote | src/components/RecommendationsDisplay.tsx:50 | definition of `"${cell}"`, with quotes doubled only in the corrected export |
| RecommendationsView.QuoteAll | src/components/RecommendationsDisplay.tsx:50 | every cell of a row is wrapped in quotes, in order |
| RecommendationsView.RowLines | src/components/RecommendationsDisplay.tsx:50 | one text line per row, in order |
| RecommendationsView.RowLine | src/components/RecommendationsDisplay.tsx:50 | definition of `row.map(...).join(',')` |
| RecommendationsView.CsvText | src/components/RecommendationsDisplay.tsx:50 | definition of csvContent as written; read back by CsvRoundTripWithoutQuotes and ExportReadsBack, broken by CsvQuoteInCellBreaksRow |
| RecommendationsView.EscapeQuotes | src/components/RecommendationsDisplay.tsx:50 | definition of the corrected quoting: each quote doubled |
| RecommendationsView.EscapedCsvText | src/components/RecommendationsDisplay.tsx:50 | definition of the corrected csvContent; read back by EscapedCsvRoundTrip and EscapedExportReadsBack |
| RecommendationsView.EscapeQuotesNoop | src/components/RecommendationsDisplay.tsx:50 | doubling quotes leaves a cell without quotes unchanged |
| RecommendationsView.ReadQuotedEscaped | src/components/RecommendationsDisplay.tsx:50 | a CSV reader reads an escaped cell back up to its closing quote and leaves the text after it |
| RecommendationsView.ReadRowLine | src/components/RecommendationsDisplay.tsx:50 | a written row line reads back as its cells, up to the end of the line |
| RecommendationsView.ReadRowsLines | src/components/RecommendationsDisplay.tsx:50 | the newline-joined lines read back as the rows |
| RecommendationsView.CsvRoundTripWithoutQuotes | src/components/RecommendationsDisplay.tsx:50 | as written, the export reads back as its rows when no cell holds a quote |
| RecommendationsView.CsvQuoteInCellBreaksRow | src/components/RecommendationsDisplay.tsx:50 | as written, the one-cell export of `a"b` does not read as CSV |
| RecommendationsView.EscapedCsvRoundTrip | src/components/RecommendationsDisplay.tsx:50 | with quotes doubled, every export of non-empty rows reads back as its rows |
| RecommendationsView.ExportReadsBack | src/components/RecommendationsDisplay.tsx:34-50 | as written, the campaign export reads back when no id, rationale or confidence text holds a quote; numbers and platforms never do |
| RecommendationsView.EscapedExportReadsBack | src/components/RecommendationsDisplay.tsx:34-50 | with quotes doubled, every campaign export reads back as its rows |
| RecommendationsView.RendersWith | src/components/RecommendationsDisplay.tsx:9-11 | definition: the render guard `state !== 'done' \|\| !results` negated, over the bound values |
| RecommendationsView.RendersAsWritten | src/components/RecommendationsDisplay.tsx:6-11 | definition: the guard with the context value's properties bound; see NeverRendersAsWritten |
| RecommendationsView.Renders | src/components/RecommendationsDisplay.tsx:9-11 | definition: the guard with the intended bindings; see RendersIffDone |
| RecommendationsView.NeverRendersAsWritten | src/components/RecommendationsDisplay.tsx:6-11 | as written, the panel renders in no state, not even done with results |
| RecommendationsView.RendersIffDone | src/components/RecommendationsDisplay.tsx:9-11 | with the intended bindings, a consistent state renders exactly when done |
| RecommendationsView.ToggleExpanded | src/components/RecommendationsDisplay.tsx:140 | the clicked row ends up open exactly when it was not open, and no other row is ever open afterwards |
| RecommendationsView.IsExpanded | src/components/RecommendationsDisplay.tsx:101 | definition of `expandedId === rec.influencerId`; see AtMostOneExpanded |
| RecommendationsView.ToggleTwice | src/components/RecommendationsDisplay.tsx:140 | clicking the same row twice leaves it open if it was open and closed otherwise |
| RecommendationsView.AtMostOneExpanded | src/components/RecommendationsDisplay.tsx:101 | with distinct influencer ids, at most one row is expanded |
| StatusDisplay.FindIndex | src/components/WorkflowStatusDisplay.tsx:20 | the first position holding the name, or -1 exactly when no step has it |
| StatusDisplay.CurrentStepIndex | src/components/WorkflowStatusDisplay.tsx:18-21 | definition of getCurrentStepIndex; properties in StepIndexOfName |
| StatusDisplay.StepNamesDistinct | src/components/WorkflowStatusDisplay.tsx:4-9 | the four step names are pairwise different |
| StatusDisplay.StepIndexOfName | src/components/WorkflowStatusDisplay.tsx:18-21 | no agent gives -1, the name of step i gives i, and an unknown name gives -1 |
| StatusDisplay.ProgressAgentsResolve | src/components/WorkflowStatusDisplay.tsx:4-9 | the panel's steps equal the provider's agentSteps, so the agent announced i-th resolves to index i |
| StatusDisplay.IsActive | src/components/WorkflowStatusDisplay.tsx:43 | definition of `index === currentStepIndex`; properties in StepClassification |
| StatusDisplay.IsCompleted | src/components/WorkflowStatusDisplay.tsx:44 | definition of `currentStepIndex > index`; properties in StepClassification |
| StatusDisplay.StepClassification | src/components/WorkflowStatusDisplay.tsx:43-44 | at most one step is active, completed means before the current step, none is both, and with index -1 none is either |
| StatusDisplay.ProgressAfterAnnouncement | src/components/WorkflowStatusDisplay.tsx:43-44 | after agent k is announced, step k is active, exactly the steps before it are completed, and no other step is active |
| StatusDisplay.VisibleWith | src/components/WorkflowStatusDisplay.tsx:14-16 | definition: the visibility guard over the bound value |
| StatusDisplay.VisibleAsWritten | src/components/WorkflowStatusDisplay.tsx:12-16 | definition: the guard with the context value's `state` property bound |
| StatusDisplay.Visible | src/components/WorkflowStatusDisplay.tsx:14-16 | definition: the guard with the phase bound; see VisibleIffStarted |
| StatusDisplay.NeverVisibleAsWritten | src/components/WorkflowStatusDisplay.tsx:12-16 | as written, the panel is hidden in every state, even while running |
| StatusDisplay.VisibleIffStarted | src/components/WorkflowStatusDisplay.tsx:14-16 | with the phase bound to `state`, the panel shows exactly outside idle |
| StatusDisplay.StepIndexAsWritten | src/components/WorkflowStatusDisplay.tsx:12-21 | as written, the current step index is always -1; as intended, it is the state's agent's index |
| StatusDisplay.RunningCaption | src/components/WorkflowStatusDisplay.tsx:36 | the placeholder without objectives; otherwise "Objectives: ", a prefix of at most 60 characters of them, then "..." |

## Left out

- The backend services (`src/services/*.ts`): delays, clocks, random ids and canned results. They are oracles given as parameters (`StartReply`, `StatusReply`).
- `localStorage`, `JSON.parse` and `JSON.stringify`. The slot is abstracted as `History.Stored`: missing, empty string, unparsable text with the parse error's message, or a list.
  - Text that parses to something other than an array is not modelled.
  - `setItem` failures (storage quota) are not modelled.
- React wiring: the rendering order of `useState`, `useReducer` and `useEffect`, the 750 ms and 1 s timers, the `clearTimeout` cleanup that cancels a pending research poll when its dependencies change, and overlapping or stale async resolutions.
  - The effect's condition and dependency list are modelled; when it fires is not.
  - The `campaignId` argument of the poll only selects the service's reply, which is an oracle here.
- JSX and CSS markup; `formatDate`/`toLocaleString`; the history panels' 2-second refresh; the duplicate `formatDuration` of `ResultsSection.tsx`.
- The Blob, object URL and anchor click that download the CSV, and the download file name (src/components/RecommendationsDisplay.tsx:51-57): browser I/O.
- The scope and depth selects: plain setters with no logic. They appear only as fields of the forms' state.
- RecommendationsView.RecordCells: `confidence.toString()` is a function parameter. Floating-point printing is not modelled.
- RecommendationsView.FormatDuration, RecommendationsView.RecordCells: durations, fit scores and engagement numbers are integers. Fractional values, and the exponent notation JavaScript uses from 1e21, are not modelled.
- RecommendationsView.ConfidenceBadge: the confidence is an exact `real`, not an IEEE double.
- BriefFormComponent.Validate, BriefFormComponent.BriefOf: `parseFloat(budget)` is the `parsedBudget` parameter. How a text parses (prefixes, exponents) is not modelled; only what the comparison and the brief do with the resulting number is modelled.
- Text.Trim: strings are sequences of Unicode scalar values. JavaScript lengths count UTF-16 code units, so the length limits differ for characters outside the Basic Multilingual Plane.
- StateBadge.UpperAscii: `toUpperCase` is modelled for ASCII letters only; the phase literals are ASCII.
- The reducers' `default` branch: it returns the state unchanged and is unreachable, because the action datatypes are closed.

## Findings

| source | as written | input that shows it | evidently intended | confidence | as-written member | corrected member |
|---|---|---|---|---|---|---|
| src/components/CampaignBriefForm.tsx:16 | `state` is destructured from the context value, so it is the whole record and `state === 'running'` is always false | any running campaign | the form is disabled while a campaign runs | high, not executed | BriefFormComponent.NeverDisabledAsWritten | BriefFormComponent.DisabledIffRunning |
| src/components/InputSection.tsx:7 | the same binding makes the research input's isDisabled always false | any running research run | input disabled while running | high, not executed | InputComponent.NeverDisabledAsWritten | InputComponent.DisabledIffRunning |
| src/components/CampaignBriefForm.tsx:141 | getStateColor receives the record and falls through to the grey default | a done or running state | blue, green or red by phase | high, not executed | StateBadge.StateColorAsWrittenIsGrey | StateBadge.StateColorOfPhase |
| src/components/CampaignBriefForm.tsx:142 | `state.charAt` is called on the record, which has no `charAt`, so rendering throws a TypeError; App.tsx:23 renders this form | the initial state | the phase name in title case | high, not executed | StateBadge.BadgeLabelAsWrittenThrows | StateBadge.BadgeLabelOfPhase |
| src/components/RecommendationsDisplay.tsx:6 | `state` is the record and `results` is not a property of the context value, so the guard always returns null | a done state with results | show the recommendations when done | high, not executed | RecommendationsView.NeverRendersAsWritten | RecommendationsView.RendersIffDone |
| src/components/WorkflowStatusDisplay.tsx:12 | `state` is the record, so the panel is hidden; `currentAgent` is undefined, so the step index is -1 | a running state at agent "Trend Agent" | show the panel outside idle, with the current agent's step | high, not executed | StatusDisplay.NeverVisibleAsWritten | StatusDisplay.VisibleIffStarted |
| src/components/RecommendationsDisplay.tsx:50 | each cell is wrapped in quotes, but embedded quotes are not doubled | a rationale `a"b` | quotes doubled (section 2 of RFC 4180), so the file reads back as its rows | medium, not executed | RecommendationsView.CsvQuoteInCellBreaksRow | RecommendationsView.EscapedExportReadsBack |
