# Chat front end: reasoning timer, input controller, web-search tool, prompts

This project models four pieces of logic from a Next.js chat application. It states their behaviour as Dafny functions, classes and methods, and proves properties of them.

- **Reasoning timer** (`reasoning_state.dfy`, module `ReasoningState`). The `useReasoningState` hook keeps a six-field view record: `isLoading`, `isExpanded`, `showReasoned`, `isCollapsed`, `thinkingDuration`, `isThinking`.
  - It also has a start-time ref, a duration interval and a 5000 ms auto-collapse timeout.
  - A session store is keyed by the base64 of the first 50 characters of the reasoning text.
  - The hook is driven by renders. At each commit, an effect runs only when one of its dependencies changed, and the previous run's cleanup runs first.
  - Pure step functions (`Commit`, `AfterTick`, `AfterTimeout`, …) define each event. The class `ReasoningHook` performs the same updates on its fields, and each of its methods is proved equal to its step function.
- **Input controller** (`multimodal_input.dfy`, module `MultimodalInput`).
  - Pure rules: the send-button enable rule, the Enter-key decision, the upload result mapping and the two `memo` comparators.
  - The class `InputController` holds the text buffer, its local-storage copy, the attachments, the upload queue, the rotating placeholder, and the lists of dispatched requests and raised notices.
  - Its methods are the handlers and effects that change that state.
- **Web-search tool** (`search_web.dfy`, module `SearchWeb`). `searchWeb.execute` turns the endpoint's answer into one of three texts:
  - an error sentence;
  - a fixed "no results" sentence;
  - a numbered listing between a header and a footer, built by a loop.

  On the listing path it also records the last results in a field of `SearchTool`.
- **Prompt assembly** (`prompts.dfy`, module `Prompts`).
  - `systemPrompt` branches on whether the model id contains `reasoning`.
  - `getRequestPromptFromHints` embeds the geolocation hints.
  - `updateDocumentPrompt` branches on the artifact kind.

`wrappers.dfy` holds the `Option` type. `strings.dfy` holds the JavaScript string operations the core uses: template-literal number rendering, `trim` with the ECMAScript whitespace set, and `includes`.

Inputs from outside the program are parameters:
- **Clock:** an integer number of milliseconds (`now`).
- **Base64 encoder:** a partial function of the key prefix (`Encoder`). `None` stands for `btoa` throwing.
- **Storage write:** `writable` says whether the session store accepts a write.
- **HTTP exchanges:** the upload outcome list and the search `Response`.
- **Placeholder order:** the result of the load-time shuffle.
- **Message id:** the generated id of the appended message.

The model follows the code in these behaviours, which a reader might expect to be otherwise:
- The Enter key submits while an upload is still pending. Only the send button checks the queue. See `EnterIgnoresUploadQueue`.
- The send button is enabled for any non-empty input, including blank input. The Enter key needs non-blank input. See `ButtonSendsBlankInput`.
- Successful uploads are appended in selection order, because `Promise.all` keeps input order. They are not appended in completion order.
- `submitForm` clears neither the upload queue nor the text buffer itself. The buffer is cleared by the conversation library's `handleSubmit`, which is not part of this model.
- The timeout collapse does not fire 5000 ms after a finish; see "Findings".

## Model

| member | source | states |
|---|---|---|
| ReasoningState.ReasoningPrefix | hooks/use-reasoning-state.tsx:27 | the key prefix is the first min(50, length) characters of the reasoning text |
| ReasoningState.StorageKey | hooks/use-reasoning-state.tsx:27 | a key exists exactly when the encoder accepts the prefix; it is `reasoning-` followed by the encoding |
| ReasoningState.GetStored | hooks/use-reasoning-state.tsx:23-32 | empty reasoning and an unbuildable key read as no data; a stored entry under the key is found, and any data found is the store's entry under the key |
| ReasoningState.SetStored | hooks/use-reasoning-state.tsx:35-43 | empty reasoning, an unbuildable key or a refused write leave the store unchanged; otherwise at most the one key is added |
| ReasoningState.KeyDependsOnlyOnPrefix | hooks/use-reasoning-state.tsx:27 | reasoning texts that agree on the first 50 characters get the same key |
| ReasoningState.StoreThenLookup | hooks/use-reasoning-state.tsx:23-43 | after a successful store, a lookup for any text with the same prefix finds exactly the stored data |
| ReasoningState.StoreLeavesOtherKeys | hooks/use-reasoning-state.tsx:35-43 | a store leaves every lookup under a different key unchanged |
| ReasoningState.Elapsed | hooks/use-reasoning-state.tsx:90 | the result is the whole seconds between start and now: s*1000 <= now-start < s*1000+1000 (floor, also for a negative difference) |
| ReasoningState.ElapsedMonotone | hooks/use-reasoning-state.tsx:88-96 | elapsed whole seconds never decrease as the clock advances |
| ReasoningState.Truthy | hooks/use-reasoning-state.tsx:89 | a start-time ref counts as set unless it is `null` or 0 |
| ReasoningState.CollapsedIdempotent | hooks/use-reasoning-state.tsx:126-133 | collapsing twice is collapsing once; duration and thinking flag are kept |
| ReasoningState.ToggledTwice | hooks/use-reasoning-state.tsx:148-154 | toggling twice restores `isExpanded` and only clears `showReasoned` |
| ReasoningState.RestoreEffect | hooks/use-reasoning-state.tsx:59-71 | only the view changes, and only when reasoning is present, loading is over and stored data is found; then it shows that duration, showReasoned set, not expanded; loading, thinking and collapse flags are kept |
| ReasoningState.MainEffectAsWritten | hooks/use-reasoning-state.tsx:73-137 | as written, a pending collapse survives a run of the effect only if that run is a finish, which schedules it 5000 ms ahead |
| ReasoningState.MainEffect | hooks/use-reasoning-state.tsx:73-136 | corrected: when neither branch applies nothing changes; the start branch sets the thinking view, records the start time, installs the interval and drops the collapse; the finish branch stops the interval and schedules the collapse 5000 ms ahead |
| ReasoningState.CommitWith | hooks/use-reasoning-state.tsx:59-137 | a commit records both effects' dependency values; the store changes only at a finish with a writable store; the start time changes only at a start |
| ReasoningState.CommitAsWritten | hooks/use-reasoning-state.tsx:59-137 | the commit as written agrees with the corrected one on everything but the pending collapse |
| ReasoningState.Commit | hooks/use-reasoning-state.tsx:59-137 | the corrected commit changes the pending collapse only at a start or a finish |
| ReasoningState.AfterTick | hooks/use-reasoning-state.tsx:88-96 | a tick changes only the duration, and only while the interval runs with a start time set |
| ReasoningState.AfterTimeout | hooks/use-reasoning-state.tsx:126-133 | a timeout that is not pending or not yet due changes nothing; it changes only the view and the pending collapse, and keeps duration and thinking flag |
| ReasoningState.AfterToggle | hooks/use-reasoning-state.tsx:148-154 | toggleExpanded flips isExpanded, clears showReasoned and changes nothing else |
| ReasoningState.AfterForceCollapse | hooks/use-reasoning-state.tsx:156-163 | forceCollapse sets isCollapsed, clears isExpanded and showReasoned, keeps duration and thinking flag, and changes nothing else |
| ReasoningState.AfterUnmount | hooks/use-reasoning-state.tsx:139-146 | unmount stops the interval and drops the pending collapse, and changes nothing else |
| ReasoningState.MountedConsistent | hooks/use-reasoning-state.tsx:46-56 | the first render satisfies the hook invariant (loading equals thinking, interval only while thinking, start time recorded while thinking, collapse pending only after thinking) |
| ReasoningState.CommitConsistent | hooks/use-reasoning-state.tsx:59-137 | every commit, as written or corrected, preserves the hook invariant |
| ReasoningState.EventsConsistent | hooks/use-reasoning-state.tsx:88-163 | tick, timeout, toggle, force-collapse and unmount preserve the hook invariant |
| ReasoningState.StartWhenLoadingSeen | hooks/use-reasoning-state.tsx:74-96 | as written and corrected: loading seen while not thinking sets isLoading/isExpanded/isThinking true, showReasoned/isCollapsed false, duration 0, records the start time, installs the interval, drops any pending collapse and leaves the store alone |
| ReasoningState.LoadingWhileThinkingIsNoOp | hooks/use-reasoning-state.tsx:74-97 | loading seen again while thinking leaves view, start time, interval and store unchanged |
| ReasoningState.StartNeedsLoading | hooks/use-reasoning-state.tsx:74 | a commit moves from not thinking to thinking only when loading is seen |
| ReasoningState.TickSetsElapsed | hooks/use-reasoning-state.tsx:88-96 | a tick sets the duration to floor((now - start)/1000) |
| ReasoningState.DurationNeverDecreases | hooks/use-reasoning-state.tsx:88-96 | over any run of ticks with a non-decreasing clock the shown durations never decrease |
| ReasoningState.StartThenTicks | hooks/use-reasoning-state.tsx:74-96 | as written and corrected: from a start, the durations 0, then each tick's, form a non-decreasing sequence |
| ReasoningState.FinishWhenLoadingEnds | hooks/use-reasoning-state.tsx:97-135 | as written and corrected: finish clears isThinking/isLoading/isExpanded, sets showReasoned, keeps isCollapsed, fixes the final duration, cancels the interval and schedules the collapse 5000 ms later |
| ReasoningState.FinalDurationCases | hooks/use-reasoning-state.tsx:99-101 | the final duration is the elapsed whole seconds when a start time is recorded (truthy), else the previous duration |
| ReasoningState.FinishThenRestore | hooks/use-reasoning-state.tsx:59-114 | as written and corrected: a finish stores {startTime, duration} under the prefix key; a later mount over that store for reasoning with the same prefix shows that duration, showReasoned true, isExpanded false |
| ReasoningState.EmptyReasoningNeverStored | hooks/use-reasoning-state.tsx:36 | no commit with empty reasoning changes the store |
| ReasoningState.ForceCollapseIdempotent | hooks/use-reasoning-state.tsx:156-163 | a second forceCollapse changes nothing |
| ReasoningState.TimeoutCollapsesLikeForce | hooks/use-reasoning-state.tsx:126-133 | the collapse timeout, once due, produces the same view as forceCollapse and is no longer pending |
| ReasoningState.ToggleTwiceRestores | hooks/use-reasoning-state.tsx:148-154 | toggling twice restores the whole hook except that showReasoned stays cleared |
| ReasoningState.AsWrittenRerenderCancelsCollapse | hooks/use-reasoning-state.tsx:126-137 | as written, the finish schedules the collapse and the very next commit with the same props cancels it |
| ReasoningState.AsWrittenNeverAutoCollapses | hooks/use-reasoning-state.tsx:73-137 | as written, loading from 1000 to 8000 ms gives duration 7 and a collapse due at 13000, yet the view is not collapsed at 13000 or later |
| ReasoningState.CorrectedKeepsCollapse | hooks/use-reasoning-state.tsx:126-135 | corrected: any number of commits with loading off, whatever their reasoning text, keep the pending collapse and the thinking flag off; with the same reasoning as the finish they leave the view unchanged |
| ReasoningState.CorrectedAutoCollapses | hooks/use-reasoning-state.tsx:126-135 | corrected: after a finish and any renders with loading off, the timeout at 5000 ms or later leaves the view collapsed, not expanded, not showing reasoned, not thinking, with no collapse pending; with the same reasoning the final duration is kept |
| ReasoningState.ReasoningHook.constructor | hooks/use-reasoning-state.tsx:46-56 | the hook starts in the initial view with no start time, no timers, and the given store; it runs the collapse timer as written or corrected, as chosen |
| ReasoningState.ReasoningHook.RunRestoreEffect | hooks/use-reasoning-state.tsx:59-71 | the in-place update equals the restore step function |
| ReasoningState.ReasoningHook.RunMainEffect | hooks/use-reasoning-state.tsx:73-136 | the in-place update equals the as-written main effect when the hook runs as written, and the corrected one otherwise |
| ReasoningState.ReasoningHook.Render | hooks/use-reasoning-state.tsx:59-137 | one commit updates the fields exactly as `CommitWith` for the hook's choice of as-written or corrected, and keeps the hook invariant |
| ReasoningState.ReasoningHook.OnInterval | hooks/use-reasoning-state.tsx:88-96 | an interval firing updates the fields as `AfterTick` and keeps the invariant |
| ReasoningState.ReasoningHook.OnTimeout | hooks/use-reasoning-state.tsx:126-133 | a due timeout updates the fields as `AfterTimeout` and keeps the invariant |
| ReasoningState.ReasoningHook.ToggleExpanded | hooks/use-reasoning-state.tsx:148-154 | updates the fields as `AfterToggle` and keeps the invariant |
| ReasoningState.ReasoningHook.ForceCollapse | hooks/use-reasoning-state.tsx:156-163 | updates the fields as `AfterForceCollapse` and keeps the invariant |
| ReasoningState.ReasoningHook.Unmount | hooks/use-reasoning-state.tsx:140-146 | unmount cancels the interval and any pending collapse and keeps the invariant |
| MultimodalInput.UploadResult | components/multimodal-input.tsx:235-256 | an upload resolves to an attachment exactly when it succeeded, with url, name = pathname and contentType |
| MultimodalInput.UploadNotice | components/multimodal-input.tsx:251-254 | exactly the failed uploads raise a notice: a rejection its server error text, a thrown request the fixed failure text |
| MultimodalInput.Successful | components/multimodal-input.tsx:266 | the filtered list holds exactly the attachments of the defined results and is no longer than the batch |
| MultimodalInput.SuccessfulAppend | components/multimodal-input.tsx:264-267 | the filter distributes over concatenation, so relative order is kept |
| MultimodalInput.SuccessfulSingletons | components/multimodal-input.tsx:266 | an `undefined` result vanishes and a defined one stays |
| MultimodalInput.Notices | components/multimodal-input.tsx:235-256 | a batch raises at most one notice per file |
| MultimodalInput.NoticesAppend | components/multimodal-input.tsx:244-255 | the notices of consecutive parts of a batch follow each other |
| MultimodalInput.NoticesSingletons | components/multimodal-input.tsx:244-255 | a success raises no notice, a rejection its error text, a thrown request the fixed failure text |
| MultimodalInput.EachUploadAttachesOrNotifies | components/multimodal-input.tsx:235-267 | the attachments and the notices of a batch together number exactly its files |
| MultimodalInput.Results | components/multimodal-input.tsx:264-265 | the batch results are one per file, in selection order |
| MultimodalInput.OneOfTwoUploadsFails | components/multimodal-input.tsx:258-267 | of a success and a failure only the success's attachment is added, and one notice is raised |
| MultimodalInput.SendDisabled | components/multimodal-input.tsx:887 | the send button is enabled exactly when the input is non-empty and no upload is queued |
| MultimodalInput.IsSubmitKey | components/multimodal-input.tsx:464 | only Enter can submit, and never with Shift or during an IME composition |
| MultimodalInput.KeyDecision | components/multimodal-input.tsx:463-472 | a non-submit key passes through; Enter while not ready notifies; Enter when ready submits iff the input is not blank, else it is swallowed (each as an iff) |
| MultimodalInput.EnterIgnoresUploadQueue | components/multimodal-input.tsx:611-620 | Enter submits non-blank input while an upload is pending, although the send button is disabled then |
| MultimodalInput.ButtonSendsBlankInput | components/multimodal-input.tsx:887 | the send button is enabled for a blank input that Enter swallows |
| MultimodalInput.NextIndex | components/multimodal-input.tsx:151 | the next index is below the count, the successor below the end and 0 at the end |
| MultimodalInput.RotationCycles | components/multimodal-input.tsx:150-152 | k rotations from the reset index land on k mod n |
| MultimodalInput.ShuffleLength | components/multimodal-input.tsx:38-59 | any shuffle of the 15 texts has 15 entries |
| MultimodalInput.RotationActive | components/multimodal-input.tsx:145 | the rotation is off whenever the status is not ready, the input is non-empty or the chat has messages |
| MultimodalInput.GatedPlaceholder | components/multimodal-input.tsx:146 | with the gate closed the text is empty exactly for an empty chat, and "Ask Anything" for a chat with messages |
| MultimodalInput.InitialInput | components/multimodal-input.tsx:168 | the seed is the DOM value, else the stored value; empty only when both are |
| MultimodalInput.SkipInputRender | components/multimodal-input.tsx:812-820 | the input skips a render iff all modelled props other than chatId and className are equal; the callback and session props the comparator also ignores are not modelled |
| MultimodalInput.ChatIdChangeSkipsRender | components/multimodal-input.tsx:812-820 | a change of chat id alone never re-renders the input |
| MultimodalInput.SkipSendRender | components/multimodal-input.tsx:908-912 | a skipped send-button render never changes the enabled state |
| MultimodalInput.InputController.constructor | components/multimodal-input.tsx:43-59 | a fresh controller holds the shuffled list, index 0, an empty buffer, no attachments and an empty queue |
| MultimodalInput.InputController.SeedInput | components/multimodal-input.tsx:143-172 | when the textarea exists, the buffer becomes the DOM value, else the stored value; a changed buffer re-runs the placeholder gate, so a rotation stops once the buffer is non-empty |
| MultimodalInput.InputController.HandleInput | components/multimodal-input.tsx:143-181 | typing sets the buffer and the storage effect copies it; a changed buffer re-runs the placeholder gate, so no rotation survives typed text |
| MultimodalInput.InputController.HandleImprovedPrompt | components/multimodal-input.tsx:229-233 | the improved prompt replaces the buffer; a changed buffer re-runs the placeholder gate |
| MultimodalInput.InputController.NewChatReset | components/multimodal-input.tsx:110-120 | an empty message list clears buffer, stored copy, index and text; otherwise nothing changes |
| MultimodalInput.InputController.PlaceholderEffect | components/multimodal-input.tsx:144-155 | rotation runs iff status is ready, the buffer is empty and there are no messages; otherwise the fixed text is shown; afterwards a rotation runs only over an empty buffer |
| MultimodalInput.InputController.OnRotationTick | components/multimodal-input.tsx:150-160 | while rotating, a tick advances the index modulo 15 and shows that entry; the index stays below 15 |
| MultimodalInput.InputController.SyncDisplayedPlaceholder | components/multimodal-input.tsx:158-160 | the shown text becomes the entry at the current index |
| MultimodalInput.InputController.ResetAfterSend | components/multimodal-input.tsx:194-198 | attachments and stored copy cleared, index 0, shown text empty |
| MultimodalInput.InputController.SubmitForm | components/multimodal-input.tsx:187-202 | one request with the buffer and the current attachments is dispatched, then the resets apply |
| MultimodalInput.InputController.HandleWebSearch | components/multimodal-input.tsx:205-227 | blank input changes nothing; otherwise exactly one user message with the untrimmed input, the attachments and the `searchWeb` marker is appended, then the resets apply |
| MultimodalInput.InputController.HandleKeyDown | components/multimodal-input.tsx:463-472 | the action is `KeyDecision`; a submit dispatches the input with the attachments and applies the resets; any other action leaves dispatches, attachments, stored copy and placeholder state alone; only a busy status adds the notice |
| MultimodalInput.InputController.ClickSend | components/multimodal-input.tsx:887-893 | an enabled button dispatches the input with the attachments and applies the resets; a disabled one leaves dispatches, attachments, stored copy and placeholder state alone |
| MultimodalInput.InputController.SelectFiles | components/multimodal-input.tsx:260-261 | the queue becomes the selected names in order |
| MultimodalInput.InputController.UploadsSettled | components/multimodal-input.tsx:263-272 | attachments become the old list followed by the successful results in selection order; every failure's notice is raised; the queue ends empty |
| SearchWeb.FailureMessage | lib/ai/tools/search-web.ts:31-34 | a non-OK response's message is the body's `error`, or "Web search failed" when that is missing or empty |
| SearchWeb.Header | lib/ai/tools/search-web.ts:44 | the header starts with the fixed lead, followed by the query |
| SearchWeb.Block | lib/ai/tools/search-web.ts:47-50 | a result's block starts with its number and title and ends with its summary and a blank line |
| SearchWeb.Listing | lib/ai/tools/search-web.ts:46-51 | the listing is empty exactly when there are no results |
| SearchWeb.ListingStartsWithFirst | lib/ai/tools/search-web.ts:46-47 | a non-empty listing starts with the first result's number and title |
| SearchWeb.Footer | lib/ai/tools/search-web.ts:53 | the footer starts with the count and the search time and ends with the total available |
| SearchWeb.NoResults | lib/ai/tools/search-web.ts:40 | the sentence starts with the fixed lead, followed by the query |
| SearchWeb.ErrorText | lib/ai/tools/search-web.ts:66 | the sentence starts with the fixed lead, followed by the error message |
| SearchWeb.Output | lib/ai/tools/search-web.ts:19-67 | listing path: starts with the header and ends with the footer for the result count; no results (absent or empty): exactly the fixed sentence; non-OK and thrown: the error sentence with the right message |
| SearchWeb.ListingAppend | lib/ai/tools/search-web.ts:46-51 | listing a concatenation lists the first part, then the second numbered on |
| SearchWeb.ListingDecompose | lib/ai/tools/search-web.ts:46-51 | the result at position i appears as block number i+1 between the blocks before and after it |
| SearchWeb.FooterStatesCount | lib/ai/tools/search-web.ts:53 | the number rendered in the footer reads back as the result count |
| SearchWeb.ListingIffHeader | lib/ai/tools/search-web.ts:39-53 | the text starts with the listing header iff the response has at least one result |
| SearchWeb.MissingResultsAreNone | lib/ai/tools/search-web.ts:37-41 | a body without `results` gives the same "no results" sentence as an empty list |
| SearchWeb.FormatListing | lib/ai/tools/search-web.ts:44-53 | the loop yields the header, the blocks numbered 1..n in input order, and the footer |
| SearchWeb.SearchTool.Execute | lib/ai/tools/search-web.ts:19-67 | the returned text is `Output`; the last results are written with the same query and results only on the listing path, and left alone otherwise |
| Prompts.Interpolated | lib/ai/prompts.ts:109 | a present string renders as itself and a missing one as the text of the missing value (`undefined` for a hint, `null` for the content) |
| Prompts.LocationLine | lib/ai/prompts.ts:109 | the line starts with `Location: ` and ends with the closing parenthesis |
| Prompts.RequestPrompt | lib/ai/prompts.ts:107-119 | the paragraph is the heading and the location line, then the fixed guidance |
| Prompts.LocationOrder | lib/ai/prompts.ts:109 | city, country, latitude and longitude occur in that order at the positions the fixed text leaves |
| Prompts.RequestPromptHoldsLocation | lib/ai/prompts.ts:107-119 | the location line is exactly the text between the heading and the guidance |
| Prompts.SystemPrompt | lib/ai/prompts.ts:121-135 | both branches start with regular, web-search and request prompts each followed by a blank line; the rest is the reasoning sentence when the id contains `reasoning`, else exactly the artifacts prompt |
| Prompts.ReasoningBranchIff | lib/ai/prompts.ts:130-134 | the prompt ends with the reasoning sentence iff the id contains `reasoning`, and with the artifacts prompt iff it does not |
| Prompts.Section | lib/ai/prompts.ts:184-190 | exactly the kinds `text`, `code` and `sheet` have a section |
| Prompts.UpdateDocumentPrompt | lib/ai/prompts.ts:178-193 | every result starts with the base prompt; it is the base prompt alone iff the kind has no section; otherwise the section follows and the rendered content ends it |
| Prompts.UpdateDocumentKindRecoverable | lib/ai/prompts.ts:184-190 | for the same content, two handled kinds give the same prompt only if they are the same kind |
| Strings.NatToString | lib/ai/tools/search-web.ts:47 | a count renders as a non-empty run of digits without a leading zero |
| Strings.ParseNatToString | lib/ai/tools/search-web.ts:53 | reading the rendered digits back gives the count |
| Strings.Trim | components/multimodal-input.tsx:206 | `trim()` returns a stretch of the string that neither starts nor ends with whitespace, and that begins where the leading whitespace ends |
| Strings.TrimEmptyIffBlank | components/multimodal-input.tsx:206-207 | `trim()` is empty exactly when every character is ECMAScript whitespace or a line terminator |
| Strings.Contains | lib/ai/prompts.ts:130 | every string includes the empty string, and a string includes only substrings no longer than itself |
| Strings.ContainsIffOccurs | lib/ai/prompts.ts:130 | `includes` holds exactly when the substring occurs at some position |

## Findings

| source | as written | input that shows it | evidently intended | confidence | as-written member | corrected member |
|---|---|---|---|---|---|---|
| hooks/use-reasoning-state.tsx:126-137 | The finish branch schedules the collapse and returns a cleanup that clears it. The finish also clears `state.isThinking`, one of the effect's dependencies, so the next render re-runs the effect, and its cleanup clears the timeout. | Loading from t = 1000 to t = 8000 ms with reasoning "r": duration 7, collapse due at 13000, but the view is still not collapsed at 13000 or later. | The view collapses 5000 ms after a finish unless a new thinking round (or unmount) comes first. | high; not executed | ReasoningState.AsWrittenNeverAutoCollapses | ReasoningState.CorrectedAutoCollapses |

`ReasoningState.AsWrittenRerenderCancelsCollapse` states the general as-written behaviour. `CommitAsWritten` models the code as written. `Commit` cancels a pending collapse only when a new round starts. `ReasoningHook` runs either commit, as its `asWritten` field chooses. The start, tick, finish, restore and invariant lemmas are stated over `CommitWith` and hold for both commits; `CommitAsWritten` states that the two differ only in the pending collapse.

## Left out

- The `typeof window` checks: the model always runs in the browser.
- JSON encoding of stored data: the store maps keys to `Stored` values directly.
- Base64 (`btoa`, section 4 of RFC 4648): the key encoder is an abstract partial function of the 50-character prefix.
- Real timers and `Date.now`: the caller delivers tick, timeout and render events with an integer millisecond timestamp.
- `setInterval` handles: the model keeps only whether the interval is installed.
- Storage quota and other `setItem` failures: `SetStored` takes a `writable` flag.
- ReasoningState.CommitWith: it runs the two effects of one commit in declaration order against the render's state. It does not model React's batching across several commits, or the extra development-mode effect runs of Strict Mode.
- The unused `WebSearchState` interface of the hook.
- How a toast is shown: the texts passed to `toast.error` are recorded in the `notices` list of `InputController`, raised in order.
- `window.history.replaceState`, focus, `adjustHeight`/`resetHeight` and every style and animation.
- The order of notices: they are raised as requests finish. `UploadsSettled` fixes them only as a multiset.
- Concurrency of uploads: only the batch's list of outcomes is modelled. The upload request itself is not modelled.
- MultimodalInput.InputController.PlaceholderEffect: the caller runs it whenever the status or the message count changes, and after `NewChatReset`. The methods that change the buffer (`SeedInput`, `HandleInput`, `HandleImprovedPrompt`) run it themselves. The effect's re-run when only the index changes is not modelled, because with the gate open it reinstalls the same interval.
- The props `session`, `setInput`, `stop`, `setAttachments`, `setMessages`, `append`, `handleSubmit`, `onModelChange` and `onWebSearch` of the input component: they are callbacks or the session, and its `memo` comparator ignores them.
- MultimodalInput.InputController.constructor: it takes any list of 15 texts as the shuffle result, because `Math.random` with a biased comparator is nondeterministic. `ShuffleLength` shows that every real shuffle has that length.
- The conversation library (`handleSubmit`, `append`, `status`, `messages`): dispatches are recorded in `dispatched`. What the library does with them, including clearing the buffer after `handleSubmit`, is not part of this model.
- `generateUUID`: the message id is a parameter of `HandleWebSearch`.
- MultimodalInput.InputController.ClickSend: while the status is `submitted`, the component shows the stop button instead of the send button, so no click can reach `ClickSend`. The model does not take the status as a parameter, so it does not rule such a click out.
- The stop button: it calls the conversation library's `stop`.
- The web-search button: it calls the `onWebSearch` prop, and `handleWebSearch` is not wired to anything in the component. `HandleWebSearch` models what `handleWebSearch` would do.
- `fetch` and the web-search endpoint: the search `Response` is an input value.
- The endpoint's numbers `searchTime` and `totalResults` are carried as the text a template literal prints for them. Number-to-text conversion of floating-point values is not modelled.
- The `console` logging of `execute`.
- `Date.now()` for the last-results timestamp: it is the `now` parameter of `Execute`.
- The tool's schema and description strings for the language model SDK.
- `codePrompt` and `sheetPrompt`: they are exported constants that none of the three modelled functions uses.
- The artifact kind type (`components/artifact` is not part of this model): `UpdateDocumentPrompt` accepts any kind, and every kind other than the three handled ones gets the base prompt.
- lib/ai/providers.ts, components/search-results-enhanced.tsx and components/thinking-message.tsx: SDK configuration and rendering only.
