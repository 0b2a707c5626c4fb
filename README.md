# Intern event generator: prompt composition and timeline, in Dafny

This project models the core of an intern-event generator. The generator
writes LLM prompts that produce weekly "events" for interns in three
disciplines (Business, Systems Engineer, Developer). A Streamlit front end
keeps a timeline of generated events in its session state. The model
covers two parts of it:

- the **prompt composition** of `generator.py`:
  - the system prompt;
  - the previous-events, feedback and cross-reference helpers;
  - the single-event, set and all-disciplines user-prompt builders;
  - the reading of uploaded files into a codebase context;
  - the mode dispatch and the two-message list of `generate_events`;
- the **timeline state machine** of `groq-deploy/app.py`:
  - the session-state defaults and the Reset Timeline handler;
  - `run_generation`, which accumulates a token stream;
  - the Regenerate Last / Next Week / Next N Weeks buttons and the pending-action block that carries them out;
  - the initial generation, with its mode-label mapping;
  - the download text.

Files:

- `text.dfy` (module `Text`): the Python string behaviour the rest relies on. It covers optional values and truthiness, `str.strip` with Python's whitespace set, `str.join`, `"".join`, `str(int)`, and a parser for the printed number.
- `prompts.dfy` (module `Prompts`): the constants and prompt builders of `generator.py`. It includes a reference model of the appended sections: a list of `Section` values whose rendering equals what the builders append step by step.
- `generator.dfy` (module `Generator`): `_read_uploaded_files` as a loop method proved against a specification function, the prompt dispatch, and the message list.
- `app.dfy` (module `Timeline`): the following pieces.
  - The session state as a pure `State` value plus one specification function per button or rerun.
  - `RunGeneration` as a loop method.
  - A `Session` class whose fields are the session-state keys. Its history is popped and appended in place, and each method is proved equal to its specification function on a `Snapshot()` of the fields.
  - Lemmas about runs of events.

The generator and the model server are treated as an oracle: a function `EventsRequest -> Stream` that gives, for a request, the tokens the server yields and whether the stream ended in an exception. Each rerun that calls the generator (`GeneratePressed`, `PendingRerun`) carries its own such function, and each `Session` method takes one. So the same request may fail on one rerun and succeed on the next (`ContinueOneRetry`). The timeline lemmas quantify over every server behaviour on every rerun, and each states when it needs a successful reply: `RunConsistent` excludes a failed regeneration (`NoFailedRegenerate`), and `RegenerateReplacesLast` is about a non-empty reply.

The long prose constants of `generator.py` are stand-in strings of the form `<...>`. These are the discipline guidance texts, the event format, the base text and rules of the system prompt, the cross-discipline instruction, the codebase notes, and the fixed instruction sentences between the interpolated values. Properties such as `SystemPromptShape` and `AddCrossReferenceInstruction` place those stand-ins but hold whatever their wording. The texts whose exact wording a property depends on are copied exactly:

- the section markers (`--- PREVIOUS EVENTS ---`, `--- FEEDBACK ---`, `--- File: ... ---`, `(could not read)`, the README markers);
- the opening of the exclusivity paragraph, and the first words of the cascade paragraph (`KEY PRINCIPLE: `) and of the rules (`Rules:`), which tell the optional system-prompt paragraphs apart;
- the closer (`PROMPT_CLOSER`), which `ClosingTails` tells apart from the one-event suffix;
- the "Generate ONLY ONE event" suffix;
- the `Week S through Week E` and `(N events total)` sentences;
- the radio labels.

Where the stand-ins are used, the interpolated values still appear in the same order as in the source.

The week counter invariant needs a record of how many weeks each history entry covers. The source does not keep one. `State.weeks` (a ghost field in `Session`) is that record. It is what `Consistent` compares `week_counter` and `last_weeks` against.

## Model

| member | source | states |
|---|---|---|
| Text.Strip | generator.py:225-229 | `str.strip()` yields the empty string exactly when the input is all whitespace; otherwise it neither starts nor ends with whitespace |
| Text.StripIsTrimmedSlice | generator.py:225-229 | what strip keeps is a slice of the input with only whitespace before and after it |
| Prompts.GuidanceLookup | generator.py:263 | an unknown or missing discipline gets empty guidance and no error; the three known disciplines get distinct non-empty guidance |
| Prompts.SystemPrompt | generator.py:154-201 | the system prompt starts with the base text and ends with the rules, and what follows the base text is the mode's paragraph followed by the rules; `SystemPromptShape` says which paragraph that is |
| Prompts.SystemPromptShape | generator.py:154-201 | every system prompt starts with the same base text and ends with the same rules block; the cascade principle follows the base iff the mode is `all`; the exclusivity paragraph for the discipline follows it iff the mode is not `all` and the discipline is truthy; otherwise the base is followed directly by the rules |
| Prompts.AddPreviousEventsContext | generator.py:208-220 | the prompt is returned unchanged iff the previous events are `None` or empty; otherwise the prompt is a prefix and the events sit right before the END PREVIOUS EVENTS marker, in a block opened by the PREVIOUS EVENTS marker |
| Prompts.AddFeedbackContext | generator.py:223-233 | the prompt is returned unchanged iff the feedback is `None` or whitespace only; otherwise the prompt is a prefix and the stripped feedback, not the raw text, sits between the FEEDBACK markers |
| Prompts.AddCrossReferenceInstruction | generator.py:236-248 | the prompt is kept as a prefix and the result ends with the cross-discipline instruction |
| Prompts.SectionsOrdered | generator.py:276-287 | the appended sections are strictly ordered (cross-reference, previous events, feedback, codebase, closer) and end with the closer; the cross-reference instruction is among them iff asked for |
| Prompts.SectionsContain | generator.py:314-322 | each optional block whose condition holds (truthy previous events, non-blank feedback, non-empty codebase) is among the sections |
| Prompts.SectionsLength | generator.py:359-369 | there are exactly as many sections as conditions that hold, plus the closer, so no block appears without its condition |
| Prompts.AppendTailRendersSections | generator.py:276-287 | the builders' step-by-step appends produce exactly the introduction followed by the rendered section list |
| Prompts.AppendTailLayout | generator.py:314-322 | every builder's prompt is its introduction followed by the rendered sections, keeps the introduction as a prefix and ends with the closer and the builder's suffix |
| Prompts.WeekLabel | generator.py:264 | the label is the generic `a week` iff the week number is falsy (`None` or 0); otherwise it starts with `Week ` and the rest reads back as the week number |
| Prompts.SingleEventPromptWeek | generator.py:264-268 | the single-event prompt opens with "Generate EXACTLY ONE event — a single event — for " followed by the week label and a space |
| Prompts.SingleEventPrompt | generator.py:255-288 | the single-event prompt starts with its introduction and ends with the closer followed by the "Generate ONLY ONE event" suffix; `AppendTailLayout` gives the sections in between |
| Prompts.SetPrompt | generator.py:291-323 | the set prompt starts with its introduction and ends with the closer; `SetPromptWeekSpan` gives its week span |
| Prompts.AllDisciplinesPrompt | generator.py:326-370 | the all-disciplines prompt starts with its introduction and ends with the closer; `AllDisciplinesPromptCounts` gives its span and event count |
| Prompts.SetPromptWeekSpan | generator.py:301-304 | the set prompt contains `Week S through Week E` with `E = S + N - 1` |
| Prompts.WeekSpanCovers | generator.py:301 | reading the two printed week numbers back, `E - S + 1` is the number of weeks |
| Prompts.AllDisciplinesPromptCounts | generator.py:338-346 | the all-disciplines prompt contains `Week S through Week E (3N events total)` with `E = S + N - 1` |
| Prompts.AllGuidanceIsJoin | generator.py:335-337 | the all-disciplines guidance is the blank-line join of one headed entry per discipline, in dictionary order |
| Generator.FilePartShape | generator.py:383-388 | each file's part starts with its `--- File: name ---` header; a readable file adds a newline, the contents and a newline; an unreadable one adds the `(could not read)` placeholder; the character after the header tells the two apart |
| Generator.FilesContext | generator.py:377-389 | the codebase context is absent iff there are no files; otherwise it opens with the first file's header and ends with the last file's part; `FilesContextSnoc` gives the order of the parts |
| Generator.FilesContextSnoc | generator.py:382-389 | one more file extends the context by a newline and that file's part, so parts appear in input order |
| Generator.ReadUploadedFiles | generator.py:377-389 | the loop returns `None` iff there are no files, and otherwise the parts of all files in order joined by newlines |
| Generator.UserPrompt | generator.py:436-450 | the dispatched prompt starts with the introduction of the builder the mode chooses (`single`, `set`, any other key for all disciplines) and ends with the closer and that builder's suffix |
| Generator.UserPromptLayout | generator.py:434-450 | the dispatched user prompt is the chosen builder's introduction followed by its ordered sections; the cross-discipline instruction is present iff asked for and the mode is neither `single` nor `set` |
| Generator.UserPromptClosing | generator.py:284-287 | the user prompt ends with the closer and the one-event suffix iff the mode is `single`, and with the bare closer in every other mode |
| Generator.Messages | generator.py:452-455 | exactly two messages, system then user; the system one opens with the base text and ends with the rules, the user one starts with the chosen builder's introduction and ends with the closer and its suffix |
| Generator.PrepareMessages | generator.py:434-455 | the files are read into the codebase context, and the messages are exactly a system message with the system prompt followed by a user message with the user prompt |
| Timeline.ModeFromLabel | groq-deploy/app.py:375-380 | "Single Event" maps to `single` and is the only label that does; "Full Set -- One Discipline" maps to `set`, "Full Set -- All Disciplines" to `all` |
| Timeline.KeyInjective | groq-deploy/app.py:375-380 | distinct modes have distinct keys, so the generator's dispatch sees the mode chosen |
| Timeline.Request | groq-deploy/app.py:162-173 | every request carries the stripped description and the uploaded files; cross-referencing is only on with the all-disciplines label; the key is `single` iff the mode is |
| Timeline.ConcatBlank | groq-deploy/app.py:175-176 | the accumulated reply is empty iff every token is empty |
| Timeline.Outcome | groq-deploy/app.py:160-186 | a generation yields text iff no exception occurred and some token is non-empty, and the text is then non-empty |
| Timeline.RunGeneration | groq-deploy/app.py:148-186 | the loop returns the in-order concatenation of the tokens, or nothing on an exception or an empty reply |
| Timeline.DefaultsConsistent | groq-deploy/app.py:21-30 | a new session's counter matches its (empty) history and it has nothing to download |
| Timeline.Download | groq-deploy/app.py:294 | the download is empty for no history, and otherwise opens with the first entry and ends with the latest one |
| Timeline.AfterReset | groq-deploy/app.py:136-143 | Reset Timeline yields the defaults except for the pending number of weeks, which it keeps, and a consistent state |
| Timeline.PressKeepsTimeline | groq-deploy/app.py:320-354 | each button (`AfterRegeneratePressed`, `AfterNextWeekPressed`, `AfterNextWeeksPressed`) records its action and the feedback as given, and Next N Weeks its weeks; history, weeks, counter, last mode, discipline and `last_weeks` are untouched, so the download and consistency are kept |
| Timeline.AfterGenerate | groq-deploy/app.py:381-391 | the first generation (its request is `InitialRequest`) either changes nothing, or makes the history exactly the reply, adds the selected weeks to the counter and sets `last_weeks` to them; `GenerateStartsTimeline` proves consistency |
| Timeline.GenerateStartsTimeline | groq-deploy/app.py:373-391 | the first generation asks for week 1 with no previous events or feedback; on success the history is exactly that one text, the counter is its number of weeks, and the mode and discipline are remembered; on failure nothing changes; consistency is kept |
| Timeline.AfterProcess | groq-deploy/app.py:224-288 | after any processed action the action and its feedback are cleared whatever the outcome; the discipline and pending weeks carry over; `ApplyConsistent` proves consistency |
| Timeline.ContinueRequestsFollowOn | groq-deploy/app.py:252-283 | both continue requests (`ContinueOneRequest`, `ContinueManyRequest`) start the week after all generated weeks and send the download text as previous events; Next Week covers one week in `last_mode or "single"`; Next N Weeks covers the pending weeks in the upgraded mode: `set` when that mode is `single`, otherwise the mode kept |
| Timeline.ContinueOneStep | groq-deploy/app.py:252-264 | Next Week either changes nothing, or extends the history by one entry and the counter by one week; `ContinueOneExtends` proves the rest |
| Timeline.ContinueOneExtends | groq-deploy/app.py:252-264 | Next Week either appends the reply (download grows by a blank line and the reply, counter +1, `last_weeks` 1, mode kept) or changes nothing; consistency is kept |
| Timeline.ContinueManyStep | groq-deploy/app.py:266-283 | Next N Weeks either changes nothing, or extends the history by one entry and the counter by the pending weeks, never leaving the mode `single`; `ContinueManyExtends` proves the rest |
| Timeline.ContinueManyExtends | groq-deploy/app.py:266-283 | Next N Weeks either appends the reply (counter +N, `last_weeks` N, the upgraded mode remembered and never `single`) or changes nothing; consistency is kept |
| Timeline.RegenerateRequestRedoesLast | groq-deploy/app.py:231-246 | regeneration asks for the last entry's weeks again, from the week that entry started, with the earlier entries as previous events and none iff it was the only entry |
| Timeline.RegenerateRequest | groq-deploy/app.py:233-246 | with no assumption about the state, the request asks for `last_weeks` weeks starting at `week_counter - last_weeks + 1`, with the pending feedback, and has no previous events iff the popped entry was the only one |
| Timeline.RegenerateStep | groq-deploy/app.py:231-250 | regeneration (`Popped`, then `RegenerateRequest`) touches only the last entry: same length iff the reply is non-empty, one shorter otherwise; the counter loses `last_weeks` and regains it only on success; `last_weeks` and the mode are never updated |
| Timeline.RegenerateReplacesLast | groq-deploy/app.py:231-250 | a successful regeneration replaces only the last entry; length, counter, `last_weeks` and mode are restored; consistency is kept |
| Timeline.RegenerateFailureDropsLast | groq-deploy/app.py:231-250 | a failed regeneration leaves the history one shorter and the counter reduced; `last_weeks` still describes the dropped entry, so consistency holds iff the new last entry has the same weeks |
| Timeline.RestoringRegenerateConsistent | groq-deploy/app.py:231-250 | the corrected regeneration keeps consistency whatever the reply, leaves the state unchanged on failure and keeps the length |
| Timeline.ApplyConsistent | groq-deploy/app.py:131-391 | every offered event keeps the state consistent, except a failed regeneration done as the source does it |
| Timeline.RunConsistent | groq-deploy/app.py:249-250 | as the source behaves, any run without a failed regeneration keeps the counter equal to the sum of the entries' weeks and `last_weeks` equal to the last entry's weeks, whatever the server answers on each rerun |
| Timeline.RestoringRunConsistent | groq-deploy/app.py:249-250 | with the corrected regeneration every run keeps that invariant, whatever the server answers on each rerun |
| Timeline.ContinueOneRetry | groq-deploy/app.py:252-264 | a failed Next Week leaves the timeline as it was, so the same press sends the same request again; when the server answers it, the run ends with the reply after the old timeline, consistently |
| Timeline.ExampleFailTwice | groq-deploy/app.py:233-246 | in the example, the second regeneration asks for the one-week entry as four weeks starting at week -2 |
| Timeline.RegenerateAfterFailureMiscounts | groq-deploy/app.py:233-250 | a concrete run (one week, four more, two failed regenerations) ends with an empty history and a counter of -3 |
| Timeline.RestoringRegenerateKeepsCount | groq-deploy/app.py:233-250 | the same run with the corrected regeneration ends with both entries and a counter of 5 |
| Timeline.Session.constructor | groq-deploy/app.py:21-33 | a new session object holds the defaults, which are consistent |
| Timeline.Session.ResetTimeline | groq-deploy/app.py:136-143 | the fields become the reset state, which is consistent |
| Timeline.Session.PressRegenerate | groq-deploy/app.py:320-329 | enabled only for non-blank feedback; records the action and the raw feedback; keeps consistency |
| Timeline.Session.PressNextWeek | groq-deploy/app.py:331-335 | records the action and the feedback; keeps consistency |
| Timeline.Session.PressNextWeeks | groq-deploy/app.py:337-354 | records the action, the feedback and the weeks (1 to 52); keeps consistency |
| Timeline.Session.GenerateEvents | groq-deploy/app.py:359-391 | the initial generation, in place, equals its specification and keeps consistency |
| Timeline.Session.RegenerateLast | groq-deploy/app.py:231-250 | pop, subtract, generate, re-append on success, in place, equals the source's regeneration; keeps consistency when the reply is non-empty |
| Timeline.Session.ContinueWithOne | groq-deploy/app.py:252-264 | equals the Next Week step and keeps consistency |
| Timeline.Session.ContinueWithMany | groq-deploy/app.py:266-283 | equals the Next N Weeks step and keeps consistency |
| Timeline.Session.ProcessPending | groq-deploy/app.py:224-288 | dispatches on the pending action and then clears it, equal to the source's rerun; keeps consistency unless a regeneration fails |

## Left out

- `get_available_models` and the `ollama.chat` stream inside `generate_events`: these are calls into the model server. The server is the per-rerun oracle; `RunGeneration` consumes its tokens. The `if token` filter is not modelled because an empty token does not change the concatenation.
- Byte decoding of uploaded files (`decode("utf-8", errors="replace")`) is library I/O. A file is its name plus its decoded contents, or `None` when reading raised.
- `uploaded_files` being `None` in the source is modelled as the empty list. Both yield no codebase context.
- The literal prose of the discipline guidance, the event format, the closer body and the instruction sentences is configuration text. It is replaced by distinct stand-in constants, as described above.
- Streamlit widgets, layout, CSS, expanders, containers, status captions, error messages and `st.rerun` are UI plumbing. Their effect is kept as preconditions and as the `Enabled` predicate: which buttons exist, regenerate needing non-blank feedback, and the number inputs' bounds on Next N Weeks.
- `Timeline.Sidebar.weeksInput`: the initial generation's number input is bounded 1 to 52 in the UI. The model does not require those bounds, since no proof needs them.
- The check `mode == "all"` in the system prompt, against the fallback to all disciplines for any other key in the dispatch: the model carries both as written. The app only ever sends the three known keys.
- The previous-events text is never truncated in the source, so there is no truncation to model.

## Findings

| source | as written | input that shows it | evidently intended | confidence | as-written member | corrected member |
|---|---|---|---|---|---|---|
| groq-deploy/app.py:233-250 | A failed regeneration pops the last entry and subtracts `last_weeks` but does not put the entry back. It also leaves `last_weeks` describing the dropped entry, and a second Regenerate Last subtracts that stale number again. | Generate 1 week, then Next 4 Weeks, then Regenerate Last twice while the server fails. The second request asks for weeks -2 to 1 for a one-week entry. The run ends with an empty history and `week_counter == -3`. | A failed regeneration restores the popped entry and the counter, so `week_counter` stays the sum of the entries' weeks. | not executed | Timeline.RegenerateAfterFailureMiscounts | Timeline.RestoringRunConsistent |

The `Session` class and `AfterProcess(..., false)` keep the source's behaviour, because that is what the application does. The corrected regeneration is `Timeline.RestoringRegenerateStep`, selected by `restoring == true`. `RestoringRegenerateConsistent` and `RestoringRunConsistent` prove the intended invariant for it.
