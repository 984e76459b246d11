# LLM Council: a verified model of its orchestration core

LLM Council answers a user's question by consulting several language models. A
conversation's message is sent to one of four collaboration modes:

- **council**: every model answers; every model then ranks the anonymised answers
  ("Response A", "Response B", ...); a chairman model synthesises the final answer; the
  rankings are aggregated by average position.
- **sequential**: the first model analyses the question; each further model improves the
  latest non-empty text in turn; a chairman (or else the last model) writes the final answer.
- **dxo**: the first model (the primary) drafts; the other models (the critics) critique
  the draft; the primary revises; a chairman (or else the primary) finalises.
- **ensemble**: every model answers; a chairman scores each answer; the chairman blends them.

Each mode has a non-streaming run, returning `(stage1, stage2, stage3, metadata)`, and a
streaming run, yielding `stage1_start`, `stage1_complete`, ..., `complete` events. The
settings hold one block per mode: the participating models, the chairman model and the
title model. They are read from a JSON file, normalised, and updated by a settings endpoint.
The first message of a conversation also gets a short generated title.

The model covers:

- the settings normalisation (`settings.dfy`);
- the agent list, the chat messages and the agent/fallback call (`common.dfy`);
- the four pipelines with their stream event order (`council.dfy`, `ranking.dfy`,
  `sequential.dfy`, `dxo.dfy`, `ensemble.dfy`, `turns.dfy`);
- the message, settings-update and delete handlers of the server (`server.dfy`).

Every call to a language model is an oracle: a `Runner` function from the model name and
the messages to `Some(content)`, or `None` when the call failed. Settings reads are
parameters, and so is the conversation's current message count. The writes to the
conversation store come back as a list of `StoreOp`s. Python exceptions are `Err` values
carrying the exception's class name.

`wrappers.dfy` (Option/Result), `json.dfy` (JSON values and Python truthiness), `text.dfy`
(`str.strip`, substring search) and `config.dfy` (the built-in model names) are support
modules.

## Model

| member | source | states |
|---|---|---|
| Settings.DefaultSettingsShape | backend/settings.py:29-53 | the defaults have exactly the four modes, each the same default block, and `default_mode` "council" |
| Settings.LegacyMigration | backend/settings.py:83-99 | a file with top-level model keys and no `modes` loads as the defaults with the council block built from those keys, where each falsy value is replaced by its default |
| Settings.LegacyCouncilBlockKeeps | backend/settings.py:89-94 | the migrated council block has exactly the three block keys; each keeps the file's value when that is truthy and is never falsy |
| Settings.LoadNonObjectIsDefault | backend/settings.py:76-104 | file content that does not parse, or that is not a dict, loads as the defaults |
| Settings.ObjectKeys | backend/settings.py:124 | iterating a dict yields one string per key: every key exactly once, and nothing else |
| Settings.EffectiveModeBlock | backend/settings.py:118-157 | the per-mode block loop computes the effective block: filtered and projected models, the model fallback, and the chairman and title resolution; a non-dict block or a non-iterable model list raises |
| Settings.KeepEntries | backend/settings.py:123-132 | the loop keeps, in order, the dict entries with a non-blank string name, projected to `name` and `system_prompt` |
| Settings.KeptEntriesShape | backend/settings.py:123-132 | kept entries are dicts with a non-blank string `name` and only `name`/`system_prompt` keys, and there are no more of them than inputs |
| Settings.KeptEntriesAppend | backend/settings.py:124-132 | the filter is applied entry by entry, in order |
| Settings.KeptEntriesEmptyIff | backend/settings.py:124-136 | nothing is kept exactly when no entry is a dict with a non-blank string name, which is when the default list is used |
| Settings.KeptEntriesOfStrings | backend/settings.py:124-129 | a list of strings (what iterating a string or a dict yields) keeps nothing |
| Settings.ResolveNameOrder | backend/settings.py:139-151 | the chairman or title model is never blank and is resolved mode value, then defaults value, then constant; a truthy non-string or blank value gives the constant |
| Settings.ConstantsNotBlank | backend/config.py:20-23 | the built-in chairman and title models are not blank |
| Settings.EffectiveBlockProperties | backend/settings.py:133-151 | an effective block's chairman and title are not blank; its models are the kept entries when any survive, and when none survives the defaults' `council_models`, or the built-in list when that is falsy |
| Settings.GetAllSettingsEffective | backend/settings.py:160-193 | exactly the four modes, each the effective block of the stored one; `default_mode` and `updated_at` fall back; the top-level fields mirror the council block; an error exactly when some block raises |
| Settings.EffectiveModes | backend/settings.py:175-179 | the loop succeeds exactly when every one of the four modes has an effective block, and then maps each mode to that block, with non-blank chairman and title |
| Settings.GetEffectiveSettings | backend/settings.py:196-201 | a returned block is one of the effective blocks, with a non-blank chairman and title |
| Settings.EffectiveSettingsChoice | backend/settings.py:196-201 | the requested mode's block when the mode is one of the four; otherwise the `default_mode` block; raises when that is not one of the four either |
| Common.BuildAgents | backend/orchestrators/common.py:92-108 | keeps, in order, the entries whose name is not blank; each agent is exactly what one entry yields (its name stripped, its `system_prompt` stripped or "" when missing or falsy) and no such entry is dropped; never more agents than entries; entries without `.get` or `.strip` raise |
| Common.AgentsFromMembers | backend/orchestrators/common.py:98-107 | an agent is built exactly when some entry yields it |
| Common.BuildFrom | backend/orchestrators/common.py:98-107 | the loop over a list of entries builds the agents the entries give, or stops at the first entry that raises |
| Common.AppendAgent | backend/orchestrators/common.py:99-107 | one pass of the loop: the agents so far are kept as a prefix, at most one agent is added and it is stored stripped |
| Common.AgentsFromErrSticks | backend/orchestrators/common.py:98-107 | once an entry raises, the build raises with that error whatever follows |
| Common.AgentsFromTidy | backend/orchestrators/common.py:99-107 | every built agent has a non-blank stripped name and a stripped system prompt |
| Common.AgentOfTidy | backend/orchestrators/common.py:99-107 | one kept entry gives a tidy agent |
| Common.AgentsFromAppend | backend/orchestrators/common.py:98-107 | the build of a concatenation is the concatenation of the builds |
| Common.NoModelsNoAgents | backend/orchestrators/common.py:98 | a missing, None or empty `council_models` gives no agents |
| Common.AgentsFromModelEntries | backend/orchestrators/common.py:98-107 | entries that pass the settings filter all become agents, one per entry, in order; agent i has entry i's stripped name and its stripped `system_prompt`, "" when that is missing or falsy |
| Common.AgentOfModelEntry | backend/orchestrators/common.py:99-107 | one entry that passes the settings filter becomes an agent with its stripped name and its stripped prompt, "" when that is missing or falsy |
| Common.Names | backend/orchestrators/sequential.py:76 | one name per agent, in roster order (the sequential `order` and the DxO `critics` lists) |
| Common.MakeMessages | backend/orchestrators/common.py:111-116 | the last message is the user content; a system message comes first exactly when the system prompt is non-empty; one or two messages |
| Common.NewFrameworkAgent | backend/orchestrators/common.py:19-21 | the model name is kept and the system prompt is the given one stripped, "" when absent |
| Common.RunAgent | backend/orchestrators/common.py:119-140 | the framework's result when it is not None, else the inference client's; the timeout defaults to 120 seconds |
| Ranking.LabelsDistinct | backend/orchestrators/council.py:58-64 | two labels are equal exactly when their positions are |
| Ranking.LabelToModel | backend/orchestrators/council.py:58-64 | "Response A", "Response B", ... map, in order, onto the stage-1 models, and no other label is mapped |
| Ranking.LabelsInjective | backend/orchestrators/council.py:58-64 | different positions get different labels |
| Ranking.LabelIsParseable | backend/orchestrators/council.py:58-64 | the label of position i has the parseable form "Response X" exactly when i < 26 |
| Ranking.LabelAtIsLabel | backend/orchestrators/council.py:206 | a label match spans exactly ten characters of the form "Response X" |
| Ranking.FindLabels | backend/orchestrators/council.py:206-210 | every label found is "Response " plus one uppercase letter |
| Ranking.LeftmostOrdered | backend/orchestrators/council.py:198 | the matches a left-to-right, non-overlapping scan takes start in increasing order, each at or after the scan's start, and each ends at or before the next one starts |
| Ranking.LeftmostComplete | backend/orchestrators/council.py:198 | such a scan takes every match whose start no earlier match overlaps |
| Ranking.FindLabelsMatches | backend/orchestrators/council.py:206-210 | the labels found are exactly the texts of the leftmost, non-overlapping matches of `Response [A-Z]`, in text order |
| Ranking.FindLabelsComplete | backend/orchestrators/council.py:206-210 | every label in the text that no earlier label overlaps is found |
| Ranking.FindLabelsEmptyIff | backend/orchestrators/council.py:209-210 | no label is found exactly when no position of the text holds one |
| Ranking.DigitRunEnd | backend/orchestrators/council.py:198 | `\d+` is the maximal run of ASCII digits |
| Ranking.SpaceRunEnd | backend/orchestrators/council.py:198 | `\s*` is the maximal run of whitespace |
| Ranking.NumberedEnd | backend/orchestrators/council.py:198 | a numbered entry is at least twelve characters long and ends within the text |
| Ranking.NumberedEndText | backend/orchestrators/council.py:198 | what a numbered-entry match spans has the form digits, ".", spaces, label |
| Ranking.FindNumbered | backend/orchestrators/council.py:198 | every numbered entry found has that form |
| Ranking.FindNumberedMatches | backend/orchestrators/council.py:198 | the numbered entries found are exactly the texts of the leftmost, non-overlapping matches of `\d+\.\s*Response [A-Z]` (greedy), in text order |
| Ranking.FindNumberedComplete | backend/orchestrators/council.py:198 | every numbered entry that no earlier entry overlaps is found |
| Ranking.SearchLabel | backend/orchestrators/council.py:202-204 | searching a numbered entry finds a label |
| Ranking.SearchNumberedText | backend/orchestrators/council.py:201-204 | the label found in a numbered entry is its last ten characters |
| Ranking.SectionSpan | backend/orchestrators/council.py:194-197 | the section is the text after the first marker up to the next marker or the end |
| Ranking.SectionHasNoMarker | backend/orchestrators/council.py:195-197 | the section holds no marker |
| Ranking.NumberedLabels | backend/orchestrators/council.py:200-205 | each numbered entry contributes a label |
| Ranking.NumberedLabelsSuffixes | backend/orchestrators/council.py:200-205 | one label per numbered entry, in order, each the entry's final label |
| Ranking.ParsedRanking | backend/orchestrators/council.py:192-210 | every parsed element is "Response " plus one uppercase letter |
| Ranking.ParsedRankingCases | backend/orchestrators/council.py:194-210 | without the marker the whole text is scanned; with it only the section, numbered entries first and bare labels only when there are none |
| Ranking.ParseRanking | backend/orchestrators/council.py:192-210 | the append loop computes the parsed ranking |
| Ranking.VotesOfExactly | backend/orchestrators/council.py:223-226 | a review's votes are exactly its mapped labels, each with its 1-based position; unmapped labels are ignored |
| Ranking.VotesExactly | backend/orchestrators/council.py:219-226 | the votes are exactly those of the individual reviews |
| Ranking.FirstAppearanceExactly | backend/orchestrators/council.py:217-229 | the aggregated models are distinct and are exactly the models voted for |
| Ranking.FirstAppearanceDistinct | backend/orchestrators/council.py:229 | no model is aggregated twice |
| Ranking.UnvotedHasNoPositions | backend/orchestrators/council.py:226-230 | a model never voted for has no positions |
| Ranking.PositionsNonEmptyIff | backend/orchestrators/council.py:226-230 | a model has positions exactly when some vote is for it |
| Ranking.Insert | backend/orchestrators/council.py:240 | insertion adds exactly the one entry |
| Ranking.SortByAverage | backend/orchestrators/council.py:240 | sorting is a permutation |
| Ranking.InsertSorted | backend/orchestrators/council.py:240 | insertion keeps the list sorted by average |
| Ranking.SortSorted | backend/orchestrators/council.py:240 | the sort's result is non-decreasing by average |
| Ranking.WithAverageAppend | backend/orchestrators/council.py:240 | selecting one average distributes over concatenation |
| Ranking.InsertStable | backend/orchestrators/council.py:240 | insertion places the entry after the equal-average entries already there |
| Ranking.SortStable | backend/orchestrators/council.py:240 | entries of equal average keep their order (a stable sort) |
| Ranking.EntriesMembers | backend/orchestrators/council.py:228-238 | an aggregate entry is a model with positions, with their count and sum |
| Ranking.EntriesLength | backend/orchestrators/council.py:228-238 | one entry per model that has positions |
| Ranking.TotalCountAppend | backend/orchestrators/council.py:236 | counts add over concatenation |
| Ranking.TotalCountInsert | backend/orchestrators/council.py:236-240 | insertion adds the entry's count |
| Ranking.TotalCountSort | backend/orchestrators/council.py:236-240 | sorting keeps the total count |
| Ranking.EntriesTotal | backend/orchestrators/council.py:228-238 | the entries' counts add up to the models' position counts |
| Ranking.CountsOverSnoc | backend/orchestrators/council.py:219-226 | one more vote adds one to the total position count over distinct models |
| Ranking.CountsOverAllVotes | backend/orchestrators/council.py:219-238 | the position counts over the voted models add up to the number of votes |
| Ranking.AggregateSorted | backend/orchestrators/council.py:228-241 | the aggregate is sorted by average, a permutation of the per-model entries, and ties keep first-vote order |
| Ranking.AggregateEntriesExact | backend/orchestrators/council.py:219-238 | one entry per model voted for and none other; its count is its number of positions and its average their mean |
| Ranking.EntriesExact | backend/orchestrators/council.py:228-238 | before sorting, one entry per model voted for, each with its positions' sum and count and the average they give; no model twice |
| Ranking.AggregateCountsTotal | backend/orchestrators/council.py:219-238 | the counts add up to the number of mapped labels parsed |
| Ranking.GroupedSnoc | backend/orchestrators/council.py:224-226 | appending a position to the `defaultdict` keeps it grouped by model in first-vote order |
| Ranking.RecordRanking | backend/orchestrators/council.py:221-226 | one review's loop appends its votes and keeps the grouping |
| Ranking.RecordVote | backend/orchestrators/council.py:224-226 | appending one position keeps the position lists and the order of first appearance in step with the votes |
| Ranking.CollectPositions | backend/orchestrators/council.py:217-226 | the loop over the reviews collects every vote, grouped by model |
| Ranking.CalculateAggregateRankings | backend/orchestrators/council.py:213-241 | the method computes the aggregate specified by the vote functions |
| Ranking.BuildEntries | backend/orchestrators/council.py:228-238 | the loop builds one entry, holding the sum and the count of its positions, per model with positions, in first-appearance order |
| Council.Stage1Exactly | backend/orchestrators/council.py:16-47 | at most one answer per agent; an answer is in stage 1 exactly when a named agent's call with its stripped system prompt returned it |
| Council.Stage1Append | backend/orchestrators/council.py:40-45 | answers are kept in roster order |
| Council.RunStage1 | backend/orchestrators/council.py:16-47 | the loop computes the stage-1 answers |
| Council.Stage2Of | backend/orchestrators/council.py:114-125 | every stage-2 entry is a ranking entry |
| Council.Stage2Exactly | backend/orchestrators/council.py:105-125 | at most one review per agent; a review is present exactly when a named agent's call returned it, with the parsed ranking of its text |
| Council.RunStage2 | backend/orchestrators/council.py:50-127 | returns the label map of the stage-1 answers and the reviews |
| Council.RunStage3 | backend/orchestrators/council.py:130-189 | the chairman's synthesis, or the error text when the call fails |
| Council.TitleOf | backend/orchestrators/council.py:259-268 | a title never exceeds 50 characters; a failed call gives "New Conversation" |
| Council.TitleShape | backend/orchestrators/council.py:262-268 | the text is stripped of whitespace and then of quotes; over 50 characters it becomes 47 plus "..." |
| Council.TitleTextIsSlice | backend/orchestrators/council.py:262-263 | the title text is a contiguous piece of the reply |
| Council.GenerateConversationTitle | backend/orchestrators/council.py:244-268 | asks the mode's title model with a 30-second timeout; raises exactly when the settings raise; at most 50 characters |
| Council.RunCouncil | backend/orchestrators/council.py:271-301 | the method computes the council turn |
| Council.CouncilOutcome | backend/orchestrators/council.py:271-301 | no agents gives the error turn; otherwise at most one answer and one review per agent, the chairman (or the built-in one) synthesises, and the aggregate is sorted and counts every vote |
| Council.StreamMatchesRun | backend/orchestrators/council.py:304-333 | the stream starts with `stage1_start`, raises exactly when the run does, emits the seven events in order and stores the run's stages, or with no agents ends on `error` and stores nothing |
| Council.StreamCouncil | backend/orchestrators/council.py:304-333 | the method computes the stream |
| Council.LaterStages | backend/orchestrators/council.py:316-330 | stages 2 and 3 of the stream and the metadata sent with stage 2 |
| Turns.FullAndFailedAreStageStreams | backend/orchestrators/council.py:309-333 | the seven-event sequence reaches the done state, and `stage1_start` then `error` reaches the failed state |
| Turns.WalkToDone | backend/orchestrators/council.py:309-333 | a stream that ends done has the seven kinds in order from where it started |
| Turns.WalkToFailed | backend/orchestrators/council.py:309-313 | a failed stream is `stage1_start` then `error` and nothing more |
| Turns.StageStreamShapes | backend/orchestrators/council.py:309-333 | a stage stream is exactly the seven events in order, or `stage1_start` followed by `error` |
| Sequential.RunStage1 | backend/orchestrators/sequential.py:10-32 | exactly one analysis, by the first agent, "" when its call failed |
| Sequential.Steps | backend/orchestrators/sequential.py:35-52 | every relay entry is a step entry |
| Sequential.RunStage2 | backend/orchestrators/sequential.py:35-52 | the relay loop computes the steps of the agents after the first, none for one agent |
| Sequential.StepsShape | backend/orchestrators/sequential.py:40-50 | one step per agent after the first, numbered 2, 3, ... and attributed in roster order |
| Sequential.StepsRelay | backend/orchestrators/sequential.py:41-51 | each step is its agent's reply to the text carried before it |
| Sequential.CarriedIsLatestNonEmpty | backend/orchestrators/sequential.py:41-51 | the carried text is the latest non-empty output, or the analysis when every output is empty |
| Sequential.HandOverVersusCarried | backend/orchestrators/sequential.py:90 | stage 3 gets the carried text, except when the last step is empty: then it gets "" |
| Sequential.RunStage3 | backend/orchestrators/sequential.py:55-77 | the final answer and the order metadata |
| Sequential.FinalCases | backend/orchestrators/sequential.py:62-75 | without a chairman the last agent and the carried text; with one the chairman, and its reply or the carried text when the call failed |
| Sequential.RunSequential | backend/orchestrators/sequential.py:80-93 | the method computes the sequential turn |
| Sequential.SequentialOutcome | backend/orchestrators/sequential.py:80-93 | no agents gives the error turn; otherwise one analysis, the numbered steps, the chairman or last agent, and the roster's order |
| Sequential.StreamMatchesRun | backend/orchestrators/sequential.py:96-123 | the stream starts with `stage1_start`, raises exactly when the run does, emits the seven events in order and stores the run's stages, or with no agents ends on `error` |
| Sequential.StreamSequential | backend/orchestrators/sequential.py:96-123 | the method computes the stream |
| Dxo.RunStage1 | backend/orchestrators/dxo.py:10-30 | exactly one draft, by the primary, "" when its call failed |
| Dxo.RunStage2 | backend/orchestrators/dxo.py:33-46 | exactly one critique per critic, in critic order, "" when a call failed |
| Dxo.RunStage3AsWritten | backend/orchestrators/dxo.py:49-90 | stage 3 as written raises NameError after its model calls |
| Dxo.RunStage3 | backend/orchestrators/dxo.py:49-90 | stage 3 with the critics passed in computes the final answer and metadata |
| Dxo.Stage3Cases | backend/orchestrators/dxo.py:66-89 | the chairman or else the primary; the revision when there is no chairman or its call failed; metadata names primary and critics and has a chairman exactly when one is set |
| Dxo.DxoAsWrittenNeverAnswers | backend/orchestrators/dxo.py:83-106 | with any agent configured, the run as written raises NameError while the corrected run returns a turn |
| Dxo.RunDxoAsWritten | backend/orchestrators/dxo.py:93-106 | the run as written: the settings' or agents' error, the no-agents turn, or NameError from stage 3 |
| Dxo.RunDxo | backend/orchestrators/dxo.py:93-106 | the method computes the DxO turn |
| Dxo.DxoOutcome | backend/orchestrators/dxo.py:93-106 | no agents gives the error turn; otherwise one draft, one critique per critic in order, the chairman or primary, and the metadata |
| Dxo.StreamMatchesRun | backend/orchestrators/dxo.py:109-140 | the stream starts with `stage1_start`, raises exactly when the run does, emits the seven events in order and stores the run's stages, or with no agents ends on `error` |
| Dxo.StreamDxo | backend/orchestrators/dxo.py:109-140 | the method computes the stream |
| Dxo.StreamDxoAsWritten | backend/orchestrators/dxo.py:109-140 | the stream as written: with an agent configured, the first two stages and `stage3_start`, then NameError and nothing stored |
| Dxo.StreamAsWrittenStopsAtStage3 | backend/orchestrators/dxo.py:109-140 | with an agent configured the stream as written is the first five events of the corrected stream, raises NameError and stores nothing, while the corrected one stores the turn; otherwise the two are the same |
| Ensemble.RunStage1 | backend/orchestrators/ensemble.py:10-30 | one answer per agent in roster order, failures kept with "" |
| Ensemble.LowerAll | backend/orchestrators/ensemble.py:59-62 | case folding character by character |
| Ensemble.FirstDigitFrom | backend/orchestrators/ensemble.py:59-62 | the first digit at or after a position, and none before it |
| Ensemble.MatchesAtLower | backend/orchestrators/ensemble.py:59-62 | a case-insensitive match is an occurrence in the folded texts |
| Ensemble.ScoreFound | backend/orchestrators/ensemble.py:59-62 | the score is the maximal digit run at the first digit after the first case-insensitive occurrence of the model name |
| Ensemble.FirstMatch | backend/orchestrators/ensemble.py:59-61 | the search in the case-folded texts finds the first case-insensitive occurrence of the name, no later than any known one |
| Ensemble.ScoreAt | backend/orchestrators/ensemble.py:59-62 | after the first occurrence, the score is the maximal digit run at the first digit |
| Ensemble.ScoreReadAfter | backend/orchestrators/ensemble.py:59-62 | the score is read after the end of the first occurrence of the name |
| Ensemble.DigitRunAfter | backend/orchestrators/ensemble.py:59-62 | when a digit follows, the score read is the value of the maximal digit run at the first digit, with no digit before it |
| Ensemble.ScoreDefault | backend/orchestrators/ensemble.py:57-62 | with no such occurrence followed by a digit the score is 50 |
| Ensemble.ScoreNotClamped | backend/orchestrators/ensemble.py:59-62 | a score of 250 is kept, not clamped to 100 |
| Ensemble.RunStage2 | backend/orchestrators/ensemble.py:33-64 | the chairman is the settings' or the first agent's, and the score loop computes one entry per answer |
| Ensemble.ReadScores | backend/orchestrators/ensemble.py:55-63 | one entry per answer, in answer order, each holding that model's score read from the reply |
| Ensemble.Stage2Shape | backend/orchestrators/ensemble.py:43-64 | with a chairman exactly one score per answer in order; without one no scores |
| Ensemble.RunStage3 | backend/orchestrators/ensemble.py:67-85 | the blend comes from the chairman or first agent; the count is the roster size |
| Ensemble.RunEnsemble | backend/orchestrators/ensemble.py:88-99 | the method computes the ensemble turn |
| Ensemble.EnsembleOutcome | backend/orchestrators/ensemble.py:88-99 | no agents gives the error turn; otherwise one answer and one score per agent in order, the chairman or first agent, and the count |
| Ensemble.StreamMatchesRun | backend/orchestrators/ensemble.py:102-127 | the stream starts with `stage1_start`, raises exactly when the run does, emits the seven events in order and stores the run's stages, or with no agents ends on `error` |
| Ensemble.StreamEnsemble | backend/orchestrators/ensemble.py:102-127 | the method computes the stream |
| Server.NormaliseModeProperties | backend/main.py:150 | None or a blank mode becomes "council", any other is stripped; the result is never blank |
| Server.NormaliseModeIdempotent | backend/main.py:150 | normalising twice changes nothing |
| Server.RunDispatchKnownModes | backend/main.py:153-173 | each of the four modes runs its own pipeline with its own settings; any other runs council with the council settings |
| Server.StreamFallbackDisagrees | backend/main.py:241-246 | the stream dispatch as written agrees on the four modes and sends every other mode to ensemble, unlike the run |
| Server.PipelineStreamMatchesRun | backend/orchestrators/council.py:304-333 | every pipeline's stream agrees with its run |
| Server.RunPipeline | backend/main.py:153-173 | the dispatch runs the selected pipeline |
| Server.StreamPipeline | backend/main.py:218-246 | the dispatch streams the selected pipeline |
| Server.SendMessage | backend/main.py:127-186 | the method computes the store writes and the reply |
| Server.StoreTurn | backend/main.py:142-178 | the writes after the existence check: the user message, the title for an empty conversation, and the assistant message only when the pipeline returned |
| Server.LaterMessagesIgnoreTitle | backend/main.py:141-149 | for a conversation that already has messages, the title has no effect on the writes or the reply |
| Server.SendMessageOutcome | backend/main.py:133-186 | an unknown conversation is refused untouched; the user message is stored first; a title is stored, second, exactly for an empty conversation whose title was generated; the reply succeeds exactly when the conversation exists, its title (if first) was generated and the pipeline returned, and it is then the pipeline's turn, stored last and only there |
| Server.SendMessageStream | backend/main.py:189-258 | the method computes the store writes and the events |
| Server.FinishStream | backend/main.py:248-258 | after the pipeline's events: an `error` event when it raised, else the title for a first message |
| Server.StreamResponseShape | backend/main.py:203-258 | the response starts with `stage1_start` and is a stage stream, optionally followed by the first message's title, or ends in `error` |
| Server.DeleteConversation | backend/main.py:117-124 | `{"status": "ok"}` whether or not anything was deleted |
| Server.Supplied | backend/main.py:312-318 | only the three block keys are copied from a block |
| Server.MergeModeBlocks | backend/main.py:306-319 | the merge loop computes the per-mode merge, or the error a non-dict stored block raises |
| Server.MergeModesKeeps | backend/main.py:306-319 | only modes with a dict block change; their stored keys not supplied stay; the supplied block keys replace; no other key appears |
| Server.Given | backend/main.py:328-336 | a legacy payload sets exactly the block keys it gives a non-None value |
| Server.NewDefaultModeCases | backend/main.py:320-324 | `default_mode` changes only for a non-blank string, stored stripped |
| Server.UpdateSettings | backend/main.py:290-339 | the method computes the settings saved, or the error raised |
| Server.LegacyUpdateKeeps | backend/main.py:326-337 | a legacy update changes only the normalised target mode, where the non-None fields replace and other stored fields stay; the default mode is kept |
| Server.LegacyUpdatedKeeps | backend/main.py:326-337 | for any stored modes: only the target mode's block changes, the given fields replace and the other stored fields stay; the default mode is kept |

## Left out

- File I/O: the settings files are given as parsed content (`FileContent`). The conversation store and `save_settings` are not modelled; the store's writes are returned as `StoreOp`s. The `updated_at` timestamp is a parameter.
- The model calls: `FrameworkAgent.run` and the inference client's `query_model` are oracles (`Endpoint`). Each pipeline takes `run_agent` at its fixed timeout as a `Runner`; title generation takes a separate `Runner` for its 30-second timeout. A response dict without `content` is not distinguished from an empty content: both are the oracle's string. The inference client can also return a `content` of `None` (backend/azure_inference.py:68-71); a reviewer's `None` would then raise `TypeError` in the council's ranking parse (`in` on `None`, backend/orchestrators/council.py:121-122 and 194), a chairman's `None` would raise `TypeError` in the ensemble score scan once stage 1 has an answer (`re.search` on `None`, backend/orchestrators/ensemble.py:52 and 59-61), the other stages (council stages 1 and 3, the DxO stages, the sequential relay, which `out_text or prev_output` absorbs, and the ensemble's answers and blend) would carry `None`, and the title's `.strip()` (backend/orchestrators/council.py:262) would raise `AttributeError`. The oracle's string leaves both out.
- The wording of the prompts: a `Prompt` records only the query and the earlier outputs it embeds.
- Settings reads: one run reads the settings once and uses that value throughout. The source reads them afresh at several points of one run (for instance backend/orchestrators/council.py:23 in stage 1, :292 and :328 in the run and the stream, :255 for the title), so a settings update landing between two reads is not modelled.
- Ensemble.ReadScores: an unbounded digit run is read as its exact value. CPython 3.11 and later makes `int()` raise `ValueError` for a string of more than 4300 digits (backend/orchestrators/ensemble.py:62); that error is not modelled.
- Concurrency: `asyncio.gather` results come back in roster order, so each stage is a loop over the agents. In the streaming endpoint the title task runs beside the pipeline; the model computes it beforehand and uses it only where the source awaits it.
- `round(avg_rank, 2)`: an aggregate entry keeps the exact sum and count, and entries are sorted by the exact quotient. Rounding could merge near-ties, which the model does not.
- Regular expressions: `\d` and `re.IGNORECASE` are restricted to ASCII digits and letters; `\s` and `str.strip` use the full set of characters `str.isspace` accepts.
- Council.RunCouncil: a Dafny `char` excludes the surrogate range, so the label `chr(65 + i)` exists only for i < 0xD800 - 65. With more stage-1 answers than that, the model raises `ValueError` where Python would go on labelling.
- Council.StreamCouncil: the same label limit raises `ValueError` after `stage2_start`.
- Exception messages: `str(e)` of a raised Python exception is modelled as the exception's class name; the 404 is the error "Conversation not found".
- Server.UpdateSettings: returns the settings it saves. The save stamps `updated_at` and the endpoint then answers with `get_all_settings_effective()` of the saved file; that re-read composes with `Settings.GetAllSettingsEffective` but is not modelled as one call.
- Server.SendMessageStream: models the corrected fallback (unknown modes stream council); the source's fallback is `Server.StreamDispatchAsWritten` (see Findings).
- Dxo.RunDxo: models the corrected stage 3, with the critics passed in; as written every DxO run with an agent configured raises `NameError`, which `Dxo.RunDxoAsWritten` models (see Findings). `Server.RunPipeline`, `Server.SendMessage` and the other server members that dispatch `DxoPipeline` inherit this correction.
- Dxo.StreamDxo: models the corrected stage 3; as written the stream stops after `stage3_start` with `NameError`, which the endpoint sends as an `error` event, and stores nothing. `Dxo.StreamDxoAsWritten` models that and `Dxo.StreamAsWrittenStopsAtStage3` compares the two. `Server.StreamPipeline` and `Server.SendMessageStream` inherit this correction.
- Server.SendMessageStream: server-sent event framing (`data: ...` lines, `json.dumps`) is not modelled; events are values.
- The HTTP routing, CORS, static files, the health, list, get and create endpoints, and `get_settings` (which is `get_all_settings_effective`).
- The Azure inference client and the agent-framework workflow adapter: they are the oracles above.

## Findings

| source | as written | input that shows it | evidently intended | confidence | as-written member | corrected member |
|---|---|---|---|---|---|---|
| backend/orchestrators/dxo.py:86 | `run_stage3_dxo` builds the metadata from `critics`, a name it never receives, so it raises NameError after its model calls | any DxO message with at least one configured agent | the critics (`agents[1:]`) are passed in and listed in the metadata | high, not executed | Dxo.RunStage3AsWritten, Dxo.RunDxoAsWritten, Dxo.DxoAsWrittenNeverAnswers, Dxo.StreamDxoAsWritten, Dxo.StreamAsWrittenStopsAtStage3 | Dxo.RunStage3, Dxo.DxoOutcome, Dxo.StreamMatchesRun |
| backend/main.py:241-246 | the streaming endpoint sends an unrecognised mode to the ensemble pipeline with mode "ensemble", although its comment says council | a streamed message with mode "chat" | fall back to council, as the non-streaming endpoint does (backend/main.py:169-173) | medium, not executed | Server.StreamDispatchAsWritten, Server.StreamFallbackDisagrees | Server.SendMessageStream |
