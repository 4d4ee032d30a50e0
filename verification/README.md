# open-researcher, modelled in Dafny

open-researcher is a browser app that runs a three-agent research workflow on a topic:

1. A **supervisor** model breaks the topic into research assignments.
2. **Researcher** tasks search for each assignment and summarise every search result into a note.
3. A **writer** model turns the notes and a source list into a Markdown report.

The app shows the run on a dashboard: an agent strip, per-agent log columns and the rendered report. A control panel starts and stops the run and picks the model behind each agent.

This project models the decisions the app makes around that run, as pure Dafny functions over immutable data, and proves what those decisions guarantee.

- `Types` and `Constants` (`types.dfy`): agents, run states, settings, log entries and search results; the agent order, the model lists and the default settings.
- `Text` (`text.dfy`): the JavaScript string operations the code relies on: `trim`, `split`, `indexOf`, `lastIndexOf`, `substring` with its clamping and argument swap, number printing and truncation with `...`.
- `PlanParser` (`plan.dfy`): how the supervisor's reply becomes research topics. The text from the first `[` through the last `]` is used when `JSON.parse` reads it as an array of strings. Otherwise the `### Phase` fallback takes over, and it never yields an empty list.
- `Prompts` and `Routing` (`prompts.dfy`, `routing.dfy`):
  - the three prompts, as the values they interpolate;
  - `runAgent`'s choice between Gemini, Ollama and the missing-key error;
  - the choice between the Tavily API and the two simulated searches.
- `Citations` (`citations.dfy`): the `Source: T (U)` notes and the writer's `- [T](U)` source list. The list is read back from the note text with the regular expression `Source: (.*?)\s\((.*?)\)`, modelled as the lazy match it is.
- `Pipeline` (`pipeline.dfy`): `startResearchProcess` as a sequential state machine over an append-only trace of events:
  - the active agent changes;
  - the abort signal is checked;
  - a log entry is added;
  - a model or search call leaves;
  - the report is handed over.

  The model backends, the searches, `JSON.parse` and the abort signal are oracles consulted at the current length of the trace.
- `Markdown` (`markdown.dfy`): `MarkdownRenderer`'s line loop, with its `i++`/`i--` index handling. It is a method whose loop invariant ties it to a functional definition of the block structure.
- `Lifecycle` (`lifecycle.dfy`): `App`'s state and handlers: settings updates, start with its re-entrancy guard and reset, the effects of the run's callbacks, how the outcome settles the state, and stop.
- `Dashboard`, `Controls`, `SourceItem` (`dashboard.dfy`, `controls.dfy`, `source_item.dfy`): what the dashboard, the control panel and a source-document button show for a state.

The model follows the code as written:
- each research task makes one summary call per search result;
- the writer's source list is neither numbered nor de-duplicated, and it is read back from the note texts with the regular expression;
- the stop or failure log entry is attributed to the `activeAgent` the start handler captured, which is always the supervisor. A corrected handler that names the agent active at the end is modelled beside it.

## Model

| member | source | states |
|---|---|---|
| Text.Trim | services/researchService.ts:77 | `trim` cuts off white space only: the result is a contiguous slice of the input with only white space outside it, and it neither starts nor ends with white space |
| Text.TrimEmptyIffBlank | components/ReportViewer.tsx:75 | a line trims to the empty string exactly when every character of it is whitespace |
| Text.IndexOf | services/researchService.ts:76 | the first occurrence of a separator, or none exactly when the separator does not occur |
| Text.Split | services/researchService.ts:76 | `split` always yields at least one piece |
| Text.SplitJoin | components/ReportViewer.tsx:29 | joining the pieces of `split` with the separator gives back the input, so no character is lost or added |
| Text.SplitPiecesFree | services/researchService.ts:76 | no piece of a split contains the separator |
| Text.SplitManyIffContains | services/researchService.ts:76-80 | a split yields more than one piece exactly when the separator occurs |
| Text.FirstLine | services/researchService.ts:77 | `split('\n')[0]` is the prefix before the first newline; it holds no newline, and when shorter than the text a newline follows it |
| Text.IndexOfChar | services/researchService.ts:129 | `indexOf` is -1 exactly when the character is absent; otherwise the character is there and does not occur before it |
| Text.LastIndexOfChar | services/researchService.ts:129 | `lastIndexOf` is -1 exactly when the character is absent; otherwise the character is there and does not occur after it |
| Text.Substring | services/researchService.ts:129 | within range `substring` is the slice from start to end. Out of range both indices are clamped to the string, and they are swapped when the start exceeds the end |
| Text.SubstringSwapsArguments | services/researchService.ts:129 | the order of the two indices does not matter |
| Text.NatToString | components/SourceDocumentItem.tsx:27 | a count prints as a non-empty run of decimal digits that reads back as the count, with no leading zero |
| Text.Ellipsize | components/SourceDocumentItem.tsx:12-14 | text within the limit is unchanged; longer text keeps its first `keep` characters followed by `...` |
| Types.AgentNamesListEveryAgentOnce | constants.ts:4 | `AGENT_NAMES` lists each of the three agents exactly once |
| PlanParser.PhaseTopic | services/researchService.ts:77-78 | a fallback topic is `Phase` followed by the first line of the trimmed phase text, and holds no newline |
| PlanParser.ExtractTopicsFromPlan | services/researchService.ts:75-81 | the fallback is never empty. It is exactly `['Overall Research']` when the plan has no `### Phase` marker; otherwise there is one topic per marker, in order. No topic holds a newline |
| PlanParser.PhaseTopics | services/researchService.ts:76-79 | one topic per phase, each the phase's `PhaseTopic` |
| PlanParser.CandidateShape | services/researchService.ts:129 | the JSON candidate contains a `[` exactly when a `[` comes before the last `]`, and then it is the text from the first `[` through the last `]` |
| PlanParser.CandidateWithoutOpening | services/researchService.ts:129 | when the reply has no `[`, neither has the candidate |
| PlanParser.CandidateBeforeOpening | services/researchService.ts:129 | when the last `]` comes before the first `[`, the swapped `substring` yields text without a `[` |
| PlanParser.StringItems | services/researchService.ts:131 | a parsed value is accepted exactly when it is an array whose every element is a string, and then yields those strings in order |
| PlanParser.ParsePlan | services/researchService.ts:126-139 | the plan comes from JSON exactly when the candidate parses to an array of strings, and then the topics are those strings (possibly none); otherwise they are the non-empty fallback topics |
| PlanParser.NoBracketPairTakesFallback | services/researchService.ts:126-139 | without a `[` before the last `]` the fallback is always taken, for any parser that needs brackets to read an array, and it yields at least one topic |
| Routing.RouteAgent | services/researchService.ts:97-106 | a call goes to Gemini exactly when the agent's provider is Gemini and a key is set. It fails exactly when the model is a Gemini model and no key is set, with the missing-key message. Every call carries the agent's model and the prompt, and a Gemini call carries the key |
| Routing.GeminiCallsCarryTheKey | services/researchService.ts:99-100 | no Gemini call leaves with an empty key |
| Routing.OllamaProviderWithGeminiModel | services/researchService.ts:102-105 | a Gemini model under the Ollama provider goes to Ollama when a key is set, and fails without one |
| Routing.DefaultSettingsUseOllama | constants.ts:9-20 | under the default settings every agent calls Ollama with `llama3.2` |
| Routing.RouteSearch | services/researchService.ts:162-168 | the real Tavily API is used exactly in Tavily mode with a Tavily key, and then with that key. The simulated local search is used exactly in local mode. The search is for the task's topic |
| Citations.NoteTexts | services/researchService.ts:183 | one `Source: T (U)\nSummary: S` text per note, in note order |
| Citations.GroupTwoEnd | services/researchService.ts:221 | the lazy second group stops at the first `)`, and only if no line break comes before it |
| Citations.GroupOneEnd | services/researchService.ts:221 | the lazy first group crosses no line break and ends at a whitespace-and-`(` after which the second group closes, at the `)` it reports |
| Citations.SourceEntriesAsWritten | services/researchService.ts:220-226 | the re-extracted list has at most one entry per note. `filter(Boolean)` leaves no empty entry, every entry starts with `-`, and the list is empty exactly when the regular expression recovers a non-empty title and URL from no note |
| Citations.GroupTwoScan | services/researchService.ts:221 | the second group reads a URL without `)` or line break in full |
| Citations.GroupOneScan | services/researchService.ts:221 | the first group reads a title without line breaks or whitespace-and-`(` in full |
| Citations.MatchOfPlainHead | services/researchService.ts:221 | on a note whose title and URL are plain, the first match captures exactly that title and that URL |
| Citations.EntryOfPlainNote | services/researchService.ts:220-225 | a plain note gives the entry `- [T](U)` when both are non-empty, and no entry otherwise |
| Citations.SourceEntries | services/researchService.ts:220-226 | the intended source list: one `- [T](U)` entry per note with a non-empty title and URL, in note order. Each entry starts with `-`, every such note's entry is present, and the list is empty exactly when no note qualifies |
| Citations.SourceEntriesAppend | services/researchService.ts:208 | the entries of concatenated notes are the concatenated entries, so the per-topic order of `flat()` carries over |
| Citations.SourceListAsWritten | services/researchService.ts:220-228 | the allowed-sources block as the writer stage builds it is `No sources found.` exactly when the regular expression recovers a non-empty title and URL from no note |
| Citations.SourceList | services/researchService.ts:220-243 | the corrected allowed-sources block is `No sources found.` exactly when no note qualifies for an entry |
| Citations.AsWrittenEntriesAgree | services/researchService.ts:220-226 | on notes whose titles and URLs are plain, the regular-expression extraction gives exactly the intended entries |
| Citations.AsWrittenAgreesOnPlainNotes | services/researchService.ts:219-243 | on plain notes the source list as written equals the intended source list |
| Citations.StorageTitleStemIsPlain | services/mockApiService.ts:113 | the simulated local result's title before ` (PDF)` is a plain title |
| Citations.TaggedTitleLinksToTag | services/researchService.ts:221 | a title of the form `stem (tag)` is read back as the stem linked to the tag, whatever the note's URL |
| Citations.TaggedEntryDiffers | services/researchService.ts:223 | the entry linking the stem to the tag is never the note's own entry |
| Citations.PdfTitleLosesItsUrl | services/mockApiService.ts:112-114 | the first simulated local result is listed as linking to `PDF`, while its intended entry links to its file URL |
| Pipeline.CheckAborted | services/researchService.ts:66-72 | a check throws the abort error exactly when the signal is set, and leaves only the check in the trace |
| Pipeline.RunAgent | services/researchService.ts:97-106 | a missing-key error leaves no call behind. Otherwise exactly the routed call leaves, and the step goes on exactly when that backend answers, with its answer. A thrown error is the backend's |
| Pipeline.SummarizeOne | services/researchService.ts:177-197 | one pass of the result loop that goes on adds exactly one summary call, the one routed for this result, and one note carrying the result's title and URL. The note's summary is the researcher model's answer to that call, and the last event is the "new source found" entry whose source data carries the same title, URL, snippet, summary and topic |
| Pipeline.Summarize | services/researchService.ts:176-201 | the result loop makes one summary call per result and one note per result, in result order, and each note's summary is the model's answer to its result's call |
| Pipeline.SummariesAnswerAppend | services/researchService.ts:182-184 | notes whose summaries answer their calls keep doing so when two such lists are concatenated |
| Pipeline.ReadResults | services/researchService.ts:170-203 | after a search the task logs its result set once, then makes one call and one note per result, each note summarised by the answer to its call |
| Pipeline.Search | services/researchService.ts:158-168 | a task makes exactly one search, the routed one for its topic, and on success its notes describe that search's results |
| Pipeline.ResearchTopic | services/researchService.ts:148-204 | one research task that goes on adds exactly the routed search for its topic, and the result set the search backend found. It adds one summary call per result, and notes that match the results one to one, each summarised by the answer to its call. No agent change or report |
| Pipeline.ResearchAll | services/researchService.ts:148-208 | the tasks together add exactly the routed searches of the topics, in topic order. The k-th result set added is one the search backend answered the k-th topic's search with. The notes they return are appended to the trace's notes. The calls added are exactly `TaskCalls`: for each topic in order, one routed summary call per result of its result set, with the earlier calls kept. Notes that matched the results before still match them after. Each note's summary is the model's answer to the added call at its position |
| Pipeline.Dispatch | services/researchService.ts:146-210 | the researcher stage after its entry check: as `ResearchAll`, with its opening and closing log lines |
| Pipeline.AskForPlan | services/researchService.ts:111-139 | on success the plan call is the only call the stage makes, the backend answered it, and the topics are `ParsePlan` of its reply |
| Pipeline.ReadPlan | services/researchService.ts:126-140 | reading the plan only logs and checks, and yields the parsed topics |
| Pipeline.Enter | services/researchService.ts:109-110 | a stage opens by making its agent active and checking the signal, and halts with the abort error exactly when the signal is set |
| Pipeline.SupervisorStage | services/researchService.ts:108-140 | the supervisor becomes active. On success, exactly the plan call was made, and the topics are the parsed reply |
| Pipeline.ResearcherStage | services/researchService.ts:143-211 | the researcher becomes active and no report is handed over. On success, as `ResearchAll`: one routed search per topic answered by its result set, one note per result, and the topics' summary calls in order |
| Pipeline.TaskCallsStep | services/researchService.ts:148-208 | the calls of one more research task follow the calls of the tasks before it |
| Pipeline.AnsweredAllStep | services/researchService.ts:164-167 | one more search answered with its result set extends a list of answered searches |
| Pipeline.Write | services/researchService.ts:216-248 | on success the writer's call is the only call, and its answer is handed over once, as the last event. A halted writer hands nothing over |
| Pipeline.WriterStage | services/researchService.ts:213-248 | the writer becomes active. On success exactly the report call was made, with the collected notes, and its answer is the report, handed over last |
| Pipeline.SummaryCalls | services/researchService.ts:178-182 | the summary calls of a result list, one per result |
| Pipeline.SummaryCallsAt | services/researchService.ts:178-182 | the k-th summary call is the routed call for the k-th result |
| Pipeline.TopicSearches | services/researchService.ts:148-168 | one search call per topic |
| Pipeline.TopicSearchesAt | services/researchService.ts:148-168 | the k-th search is the routed search for the k-th topic |
| Pipeline.FlattenStep | services/researchService.ts:207-208 | flattening one more result set appends it at the end |
| Pipeline.DescribesAppend | services/researchService.ts:207-208 | notes that match their results keep matching when both lists are concatenated |
| Pipeline.EmitKeepsRecords | services/researchService.ts:93-95 | every event added keeps the trace's records of agents, calls and reports in step with its events |
| Pipeline.SupervisorFromStart | services/researchService.ts:108-140 | from the empty trace the first stage makes the supervisor active. When it goes on, its only call is the plan call, and nothing was searched or noted |
| Pipeline.StagesRunInOrder | services/researchService.ts:109-214 | every run makes the supervisor active first, and the agents it activates are a prefix of supervisor, researcher, writer |
| Pipeline.CompletedRunActivatesEveryAgent | services/researchService.ts:109-214 | a completed run activates exactly supervisor, researcher, writer, in that order |
| Pipeline.CompletedRunReportsOnceAndLast | services/researchService.ts:245-248 | a completed run hands over exactly one report, its result, as its very last event |
| Pipeline.HaltedRunReportsNothing | services/researchService.ts:84-249 | a run that throws hands over no report |
| Pipeline.AbortAtOnce | services/researchService.ts:109-110 | a signal set before the first check stops the run with the abort error, before any log entry or call |
| Pipeline.SearchesFollowThePlan | services/researchService.ts:148-168 | a completed run searched once per planned topic, in topic order, and logged one result set per search |
| Pipeline.NotesCarryTheAnswers | services/researchService.ts:182-183 | in a completed run every note's summary is the model's answer to the summary call at the same position between the plan call and the report call |
| Pipeline.ResultSetsAnswerTheSearches | services/researchService.ts:159-170 | in a completed run the k-th result set is one the search backend answered the k-th search with |
| Pipeline.OneNotePerResultOneCallPerNote | services/researchService.ts:118-245 | in a completed run the notes match the results of all searches one to one, in order. The first call is the plan call and the last the report call on those notes. The calls between are exactly the summary calls of the planned topics' result sets, topic after topic and result after result, so there are two calls more than notes |
| Pipeline.PlanCallFirst | services/researchService.ts:124 | the first call of a completed run is the supervisor's plan request for the research topic |
| Pipeline.ReportCallLast | services/researchService.ts:245 | the last call of a completed run is the writer's request, carrying every note the run wrote |
| Pipeline.GeminiCallsKeyed | services/researchService.ts:97-106 | no run sends a Gemini call without the configured, non-empty key |
| Markdown.LeadingDigits | components/ReportViewer.tsx:61 | the run of digits that starts a line: all digits, and followed by a non-digit |
| Markdown.RunLength | components/ReportViewer.tsx:51 | a run of list lines is no longer than the lines, and at least one line when the first line is an item |
| Markdown.RunLengthIsMaximal | components/ReportViewer.tsx:51-55 | the grouped lines are all items, and the line after them is not |
| Markdown.RunLengthOfMaximalPrefix | components/ReportViewer.tsx:51-55 | any maximal prefix of items is the run |
| Markdown.Head | components/ReportViewer.tsx:34-79 | each step consumes at least one line and never more than remain |
| Markdown.BlocksStep | components/ReportViewer.tsx:31 | pushing the next block and moving past the lines it consumed keeps the loop's invariant |
| Markdown.CollectBullets | components/ReportViewer.tsx:47-56 | the inner loop stops at the end of the maximal run of `* `/`- ` lines, one item per line, each the line without its first two characters |
| Markdown.CollectNumbered | components/ReportViewer.tsx:61-70 | the inner loop stops at the end of the maximal run of numbered lines, one item per line |
| Markdown.NextBlock | components/ReportViewer.tsx:32-79 | one pass of the loop body pushes the head block, and after `i--` leaves `i` on the last line it consumed |
| Markdown.RenderMarkdown | components/ReportViewer.tsx:28-82 | the loop terminates, and its elements are exactly the blocks of the split content |
| Markdown.HeadFacts | components/ReportViewer.tsx:47-72 | a list block has one item per grouped line, and its run is maximal; every other block consumes exactly one line |
| Markdown.EveryLineConsumedOnce | components/ReportViewer.tsx:31-80 | the lines the blocks stand for add up to the number of lines: each line is consumed exactly once |
| Markdown.BlockCount | components/ReportViewer.tsx:28-82 | the renderer emits as many blocks as there are lines, less, for every list, its length minus one |
| Markdown.HeadingsGiveBackTheirLine | components/ReportViewer.tsx:34-45 | a heading's text is its line without the marker, and the marker tested first wins: `### `, then `## `, then `# `. Every line starting with `# ` becomes a heading of some level |
| Markdown.ListsAreMaximalRuns | components/ReportViewer.tsx:47-72 | no list is empty, and no list is directly followed by a line that would have continued it |
| Markdown.FourHashesMakeAParagraph | components/ReportViewer.tsx:34-45 | `####x` matches no heading and becomes a paragraph |
| Markdown.HashWithoutSpaceMakesAParagraph | components/ReportViewer.tsx:42-45 | `#x` is not a heading and becomes a paragraph |
| Markdown.SpacerIffBlank | components/ReportViewer.tsx:75-79 | a line that is neither a heading nor a list item becomes a spacer when blank, and otherwise a paragraph of itself |
| Lifecycle.OutcomeOf | App.tsx:59-79 | the awaited process finished exactly when it went through, and otherwise threw what halted it |
| Lifecycle.ChangeSetting | App.tsx:19-21 | `handleSettingsChange` sets the named field to the value and leaves every other field as it was |
| Lifecycle.SettingsAreTheirFields | types.ts:13-20 | settings that agree on every field are equal, so `ChangeSetting`'s two clauses determine its result |
| Lifecycle.ChangeToCurrentValue | App.tsx:19-21 | setting a field to its current value changes nothing |
| Lifecycle.ChangeAgentSettings | App.tsx:23-34 | only the given agent's given fields change; the other agents and the other settings stay |
| Lifecycle.ChangeModel | App.tsx:36-38 | the agent gets exactly the chosen model and provider, and nothing else changes |
| Lifecycle.ChangeSettingsOf | App.tsx:19-21 | a settings change touches only the settings and keeps the app consistent |
| Lifecycle.ClearResearch | App.tsx:40-45 | logs, report, active agent and error are cleared, and settings, state and controller are kept |
| Lifecycle.Begin | App.tsx:50-52 | a start empties the logs, report, active agent and error. It sets the state to running, installs a fresh, unaborted controller and keeps the settings |
| Lifecycle.ReplayEffects | App.tsx:55-66 | while the process runs, its callbacks append its log entries in order and set the latest active agent and report. Nothing else changes |
| Lifecycle.ErrorText | App.tsx:77 | the error text is never empty: it is the error's own message when that is non-empty, and `An unknown error occurred.` otherwise |
| Lifecycle.SettleWith | App.tsx:67-82 | completion sets `completed` and logs nothing. An abort sets `stopped` with the stop text and one entry for the given agent. Any other error sets `error` with its message and one entry. The active agent always ends cleared |
| Lifecycle.SettleAsWritten | App.tsx:68-82 | settling as written ends the run with no agent active and the settings kept. It attributes a terminal entry to the `activeAgent` the callback captured when it was created, or to the supervisor |
| Lifecycle.Settle | App.tsx:67-82 | the corrected settling ends the run with no agent active and the settings kept. It attributes a terminal entry to the agent active when the run ended, or to the supervisor |
| Lifecycle.HandleStartResearchAsWritten | App.tsx:47-83 | `handleStartResearch` as written: a start while running changes nothing. Any other start ends in a state other than running, with no agent active and the settings kept |
| Lifecycle.HandleStartResearch | App.tsx:47-83 | the corrected handler, whose terminal entry names the agent active at the end: a start while running changes nothing. Any other start ends in a state other than running, with no agent active and the settings kept |
| Lifecycle.HandleStop | App.tsx:85-89 | stop aborts the controller when there is one, and otherwise changes nothing |
| Lifecycle.StartWhileRunningChangesNothing | App.tsx:48 | starting while a run is in progress leaves the whole app unchanged, as written and corrected |
| Lifecycle.RunStartsCleanAsWritten | App.tsx:47-83 | with the handler as written, after a start the logs are exactly the run's entries, plus one terminal entry when it threw. The report is the last one handed over, the active agent is cleared, settings are kept and the state matches the outcome |
| Lifecycle.RunStartsClean | App.tsx:47-83 | the same for the corrected handler |
| Lifecycle.TerminalEntryNamesTheEndingAgent | App.tsx:68-79 | with the corrected handler, the stop or error entry names the agent that was active when the run ended |
| Lifecycle.TerminalEntryAlwaysSupervisorAsWritten | App.tsx:73-83 | with the handler as written, from any consistent state, the stop or error entry always names the supervisor |
| Lifecycle.WriterAbortBlamesSupervisorAsWritten | App.tsx:69-73 | a run stopped during the writer stage logs its stop entry under the supervisor as written, and under the writer when corrected |
| Lifecycle.HandlersKeepConsistent | App.tsx:80-82 | every handler leaves no agent active outside a run |
| Lifecycle.InitialIsConsistent | App.tsx:10-15 | the app starts idle with no active agent |
| Dashboard.LogsOf | components/Dashboard.tsx:25-27 | an agent's column holds only that agent's entries, and never more entries than the logs |
| Dashboard.LogsOfAppend | components/Dashboard.tsx:25-27 | filtering keeps order: the column of appended logs is the two columns appended |
| Dashboard.InColumnIffOwnAgent | components/Dashboard.tsx:25-27 | an entry is in an agent's column exactly when it is in the logs and is that agent's |
| Dashboard.ColumnsPartitionTheLogs | components/Dashboard.tsx:25-27 | the three columns together hold every entry exactly as often as the logs do, and their lengths add up to the number of entries |
| Dashboard.Nodes | components/Dashboard.tsx:38-45 | one node per agent name, in order |
| Dashboard.ActiveNodeIsTheActiveAgent | components/Dashboard.tsx:40 | no node is lit when no agent is active; otherwise exactly the nodes named after the active agent are |
| Dashboard.OneNodeLit | components/Dashboard.tsx:38-40 | on the app's strip an active agent lights exactly one node |
| Dashboard.ArrowsBetweenNeighbours | components/Dashboard.tsx:41-43 | an arrow follows every node but the last, so there are one fewer arrows than names |
| Dashboard.Render | components/Dashboard.tsx:25-75 | the error banner shows exactly for a non-empty error. The idle prompt shows exactly when idle, and the columns exactly when not. The report shows exactly when completed with a non-empty report, and only inside the log container, never beside the idle prompt |
| Dashboard.PromptOrColumns | components/Dashboard.tsx:58-71 | exactly one of the idle prompt and the log columns shows, and the report never shows without the columns |
| Controls.ButtonsFor | components/ControlPanel.tsx:25-50 | Start is enabled exactly when not running and Stop exactly when running, so exactly one is enabled. The label reads `Running...` exactly when running |
| Controls.ProviderName | components/ControlPanel.tsx:83 | a provider's spelling in a select value is non-empty and holds no colon |
| Controls.ProviderOf | components/ControlPanel.tsx:29 | the unchecked cast acts as Gemini exactly for the spelling `gemini` |
| Controls.ProviderNameRoundTrip | components/ControlPanel.tsx:28-29 | a provider's spelling is read back as that provider |
| Controls.SplitAtFirst | components/ControlPanel.tsx:28 | `split(':')` of a value whose first colon follows the text `a` gives `a` as its first piece, followed by the pieces of the rest |
| Controls.SplitWithoutSeparator | components/ControlPanel.tsx:28 | `split(':')` of a value without a colon is that value alone |
| Controls.DecodeWithoutColon | components/ControlPanel.tsx:28 | a value without a colon is all provider, and the model is undefined |
| Controls.DecodeKeepsTwoPieces | components/ControlPanel.tsx:28 | decoding keeps the text before the first colon and the text between the first and second; anything after the second colon is dropped |
| Controls.EncodeDecode | components/ControlPanel.tsx:27-30 | a select value built as `provider:model` at line 83 decodes to that provider and model whenever the model holds no colon |
| Controls.ModelOptions | components/ControlPanel.tsx:87-96 | one option per Ollama model and one per Gemini model |
| Controls.OptionsDecode | components/ControlPanel.tsx:88-96 | every option the select offers decodes to its own provider and model |
| Controls.SelectModel | components/ControlPanel.tsx:27-30 | picking an offered option gives the agent that option's model and provider, so the select shows that option. Other agents and other settings are unchanged |
| Controls.SearchModeValue | components/ControlPanel.tsx:114-115 | each search mode has an option of the select |
| Controls.SearchModeOf | components/ControlPanel.tsx:108-116 | the select yields a mode exactly for its two option values, `tavily` and `local_search` |
| Controls.SearchModeRoundTrip | components/ControlPanel.tsx:110-116 | a mode's option value reads back as that mode |
| SourceItem.DisplayTitle | components/SourceDocumentItem.tsx:12-14 | a topic of at most 30 characters shows unchanged; a longer one shows its first 27 characters and `...` |
| SourceItem.TitleBounds | components/SourceDocumentItem.tsx:12-14 | the shown title is min(length, 30) long, and its first min(length, 27) characters are the topic's |
| SourceItem.SourceNoun | components/SourceDocumentItem.tsx:27 | the noun is `source` exactly for a count of 1 and `sources` otherwise, 0 included |
| SourceItem.CountLabel | components/SourceDocumentItem.tsx:27 | the label starts with the count and ` source`, and ends in `s` exactly when the count is not 1 |
| SourceItem.OpenIffClickedSinceClose | components/SourceDocumentItem.tsx:10-36 | the modal is open exactly when there was a click and no close after it |

## Left out

- Network clients (services/researchService.ts:14-61, and the Ollama and Gemini clients): modelled as oracles that answer with text or results or throw an error. HTTP, CORS hints and SDK behaviour are not modelled.
- Timers, `delay`, and the racing of abort events against pending calls: the abort signal is read only at each `checkAborted`.
- Concurrency of the research tasks: they run one after another in topic order. Notes come out in the same order as with `Promise.all` and `flat()`. A failing run reports the failing task that comes first in topic order, while `Promise.all` rejects with whichever failure comes first in time. Once it rejects, the other tasks are not cancelled: they keep logging and calling the model until they reach a check of the signal.
- `JSON.parse`: an oracle from text to a parsed value or a syntax error. No JSON parser is modelled.
- Timestamps, `console` output and `alert`: they do not affect any decision.
- `renderLine` styling and the report export functions (components/ReportViewer.tsx:18-26, 89-134): the first relies on regular-expression styling into HTML strings, the second on DOM downloads and floating-point PDF scaling.
- Presentation: JSX and CSS, `LogViewer.tsx`, `SourceDocumentModal.tsx` and `AgentNode.tsx`.
- The `SourceDocument` type's definition is not part of this model. `SourceItem.SourceDocument` keeps the two things the button reads: the topic and the number of sources.
- Prompts.Render: the prompt texts are spelled out, but no property is proved about them. The writer's prompt ends with the allowed-sources block as the code builds it, `Citations.SourceListAsWritten`. Every other fact about a prompt is stated on the structured prompt value.
- Prompts.MessageText: the log line texts are spelled out without properties. The log entries in the model carry a structured message.
- Controls.SelectModel: requires a value the select offers. The handler itself would take any string, but the select only ever passes one of its options.
- Controls.Decode: the cast `provider as ModelProvider` is unchecked in the source. The model reads any spelling other than `gemini` as Ollama, which is how every later comparison treats it.
- Lifecycle.RunStartsClean: the exact log list holds for the model, where the research tasks run one after another and a halt ends the run. In the app, after `Promise.all` rejects, the other tasks keep running: `delay` does not watch the signal, the `Starting research...` line (services/researchService.ts:158) is logged with no check after it, and `Found N sources.` (line 170) is logged before the check on line 171. Such lines can arrive after the handler settled and land after the terminal entry; the same holds for Lifecycle.RunStartsCleanAsWritten.
- Text.Ellipsize: lengths are counted in Dafny characters, that is Unicode scalar values. JavaScript's `length` and `substring` count UTF-16 code units, so for text outside the Basic Multilingual Plane (16 copies of U+1F600, say) the app measures and cuts differently, possibly inside a surrogate pair.
- SourceItem.DisplayTitle: the 30 and 27 are counted in scalar values, not UTF-16 code units, as for Text.Ellipsize.
- SourceItem.TitleBounds: the bounds are in scalar values, not UTF-16 code units, as for Text.Ellipsize. The same holds for the 25 and 22 of a research task's log prefix in Prompts.MessageText.
- Pipeline.EmitKeepsRecords: the running records in a trace are proved to stay in step with its events for a single `Emit`. The stage contracts speak of the records.

## Findings

| source | as written | input that shows it | evidently intended | confidence | as-written member | corrected member |
|---|---|---|---|---|---|---|
| App.tsx:68-83 | the stop and error entries use `activeAgent`. That is the value the callback captured when it was created, and it is `null` outside a run, so the entry always names the supervisor | a run stopped while the writer is active: events activate supervisor, researcher, writer, then the abort | the entry names the agent that was active when the run ended | high; not executed | Lifecycle.WriterAbortBlamesSupervisorAsWritten | Lifecycle.TerminalEntryNamesTheEndingAgent |
| services/researchService.ts:220-226 | the source list is re-read from each note's text with `Source: (.*?)\s\((.*?)\)`. The lazy first group stops at the first whitespace-and-`(` | the simulated local result `Local Doc: Report on Energy Storage Solutions (PDF)` with URL `file:///local/docs/energy_storage.pdf` is listed as `- [Local Doc: Report on Energy Storage Solutions](PDF)` | each note's entry links its full title to its own URL | high; not executed | Citations.PdfTitleLosesItsUrl | Citations.SourceEntries |
