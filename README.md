# Business-plan analysis, agent chat and documents hub — a Dafny model

This project models the core logic of a startup dashboard. The dashboard does four things in this model:

- It uploads business plans and creates one `processing` analysis record per file.
- It has a serverless worker send the plan text to a language-model gateway and write the parsed analysis onto the record.
- It shows the record with score tiers, captions and report sections, and follows realtime updates.
- It runs a three-step chat turn with a persona agent, plus a documents hub with a toast queue and a "plans" sub-product.

One Dafny module models each source file:

| module | source file | form |
|---|---|---|
| `Wrappers` | — | `Option`, `Result`, JavaScript truthiness of an optional string |
| `AnalysisRecords` | shared record shapes | datatypes, the completing update, the `AnalysesTable` class |
| `EnrichmentWorker` | `supabase/functions/analyze-business-plan/index.ts` | pure `Decide`, then the `Serve` method that writes to the table |
| `AnalysisViewer` | `src/pages/BusinessPlanAnalysis.tsx` | pure presentation rules and page states, plus the `AnalysisPage` class |
| `UploadSubmitter` | `src/pages/BusinessPlanUpload.tsx` | the `UploadPage` class; the upload loop is proved against `UploadEffects` |
| `AgentChat` | `src/pages/AgentChat.tsx` | trimming, context building and `TurnOf`, plus the `ChatSession` and `MessageStore` classes |
| `DocumentTypes` | shared value types of the documents hub | hub names, toasts, modes and assumptions |
| `DocumentsHubPage` | `src/pages/DocumentsHub.tsx` | the `DocumentsHub` class, which mounts and unmounts the plans hub, and the toast filter `WithoutId` |
| `PlansHub` | `src/modules/plans/PlansApp.tsx` | the `PlansApp` class, the form, and the high-risk filter |

## Modelling choices

Things outside the browser are inputs to the model:

- **Backend calls.** The storage bucket, the insert, the function invoke and the chat agent are not modelled as state. An upload records every call it makes, in order, as an `Effect`. What each call answers comes from `world(i)` for the i-th file: the clock reading, the new row id, and which call fails with what message. A chat turn gets its answers the same way from a `TurnWorld`.
- **The worker.** The database answer to the update, the gateway reply and the three environment variables (database URL, service key, API key) are parameters.
- **Text lengths.** A JavaScript string counts UTF-16 code units, so the file text the upload page reads is a sequence of code units (`UploadSubmitter.JsText`), and the 50000 limit counts them.
- **The tables the code writes.** The analyses table (`AnalysesTable`) and the messages table (`MessageStore`) are classes. Their methods change them.

The model follows these JavaScript details:

- `!x` holds for an absent string and for `""`.
- A comparison such as `null >= 80` coerces null to 0. So a record without an overall score gets the "Requires significant development" caption.
- The client JSON-serialises an update, which drops `undefined` keys. So a report key the model output lacks leaves that column as it was (`Overwrite`).
- The worker's catch-all reports a thrown value's message only if it is an `Error` instance. Otherwise it reports "Unknown error".

The completing update of the worker is a merge with the earlier column values, not a full overwrite: a report key the model output lacks leaves that column as it was. See `AnalysisRecords.PartialAnalysisMerges`.

## Model

| member | source | states |
|---|---|---|
| AnalysisRecords.InsertedRow | src/pages/BusinessPlanUpload.tsx:58-67 | the created row carries the payload's owner, file metadata and status, has no report field, and is lifecycle-valid when processing |
| AnalysisRecords.CompletedRow | supabase/functions/analyze-business-plan/index.ts:157-171 | the row after the completing update: status completed, each of the seven report columns set from the analysis when it has that key and kept otherwise, the whole analysis as full report, the new update time; its contract is stated by `CompletedRowContents` |
| AnalysisRecords.CompletedRowContents | supabase/functions/analyze-business-plan/index.ts:157-171 | after the update the row is completed and holds the whole analysis as full report; each report key present is copied, each absent key leaves the column unchanged; identity, file metadata and creation time are untouched |
| AnalysisRecords.CompletedRowIdempotent | supabase/functions/analyze-business-plan/index.ts:157-171 | applying the same analysis twice gives what one application gives, apart from the update time |
| AnalysisRecords.CompleteAnalysisReplaces | supabase/functions/analyze-business-plan/index.ts:159-168 | a second analysis with all seven report keys replaces the first one completely |
| AnalysisRecords.PartialAnalysisMerges | supabase/functions/analyze-business-plan/index.ts:159-168 | a second analysis without a key keeps the first analysis's value for that column |
| AnalysisRecords.AnalysesTable.Insert | src/pages/BusinessPlanUpload.tsx:58-71 | with no database error the table gains exactly the `InsertedRow` of the payload under the fresh id and no other row changes; an error leaves the table as it was and is passed back |
| AnalysisRecords.AnalysesTable.CompleteById | supabase/functions/analyze-business-plan/index.ts:157-176 | with no database error, the row with the id is completed and no other row changes; an unknown id or an error leaves the table as it was; the error is passed back |
| EnrichmentWorker.ThrownMessage | supabase/functions/analyze-business-plan/index.ts:183-188 | an `Error` instance reports its own message, anything else "Unknown error" |
| EnrichmentWorker.GatewayRequestFor | supabase/functions/analyze-business-plan/index.ts:113-130 | one request to the fixed endpoint and model, with a bearer token and a user turn that is the fixed prefix followed by the whole file text |
| EnrichmentWorker.GatewayFailure | supabase/functions/analyze-business-plan/index.ts:132-151 | a non-ok status 429 or 402 is passed through with its own message; every other non-ok status becomes 500 "AI analysis failed" |
| EnrichmentWorker.Accepted | supabase/functions/analyze-business-plan/index.ts:10-111 | the request passes every check before the gateway call: it is not a pre-flight, its body parses, its id and text are non-empty, and the database URL, the service key and the API key are all non-empty |
| EnrichmentWorker.Decide | supabase/functions/analyze-business-plan/index.ts:9-154 | pre-flight answered with cross-origin headers; unparseable body 500; missing or empty id or text 400; then an empty database URL or service key 500 with the client constructor's message; no API key 500; exactly one gateway call for an accepted request and none otherwise; unreachable gateway, non-ok status and unparseable output answered without a write; the write is reached exactly when all checks pass and the output parses |
| EnrichmentWorker.Serve | supabase/functions/analyze-business-plan/index.ts:9-189 | the response is the decision's, except at the write: a database error gives 500 with the thrown message and no change, success gives 200 with the analysis and completes exactly that row |
| AnalysisViewer.ScoreTier | src/pages/BusinessPlanAnalysis.tsx:63-73 | the three tiers are at least 8, from 6 to below 8, and below 6, and they cover every score |
| AnalysisViewer.ScoreColor | src/pages/BusinessPlanAnalysis.tsx:63-67 | green iff score at least 8, yellow iff 6 to below 8, red iff below 6; the colour of the score's tier |
| AnalysisViewer.ScoreBadge | src/pages/BusinessPlanAnalysis.tsx:69-73 | default iff at least 8, secondary iff 6 to below 8, destructive iff below 6; the badge of the score's tier |
| AnalysisViewer.TierRenderingInjective | src/pages/BusinessPlanAnalysis.tsx:63-73 | distinct tiers have distinct colours and distinct badges |
| AnalysisViewer.ColorAndBadgeAgree | src/pages/BusinessPlanAnalysis.tsx:63-73 | two scores share a colour exactly when they share a badge |
| AnalysisViewer.CaptionFragments | src/pages/BusinessPlanAnalysis.tsx:138-142 | exactly one caption renders for every score, null included (as 0): at least 80, from 60 to below 80, below 60 |
| AnalysisViewer.GapIconColor | src/pages/BusinessPlanAnalysis.tsx:209-213 | red iff critical, yellow iff important, blue for every other severity |
| AnalysisViewer.GapBadge | src/pages/BusinessPlanAnalysis.tsx:218 | destructive iff critical, secondary otherwise |
| AnalysisViewer.KeyLabel | src/pages/BusinessPlanAnalysis.tsx:170 | the label has the key's length, every underscore becomes a space, every other character is kept, and no underscore remains |
| AnalysisViewer.KeyLabelFixesPlainKeys | src/pages/BusinessPlanAnalysis.tsx:170 | a key without underscores is shown unchanged |
| AnalysisViewer.KeyLabelIdempotent | src/pages/BusinessPlanAnalysis.tsx:170 | labelling a label changes nothing |
| AnalysisViewer.ReportOf | src/pages/BusinessPlanAnalysis.tsx:107-340 | missing lists and objects default to empty; each section has one entry per stored entry; a present financial analysis shows its score, the badge of its score (0 when missing) and its stored strengths and concerns, a missing one the destructive badge of score 0; present recommendations show their three stored lists |
| AnalysisViewer.ReportLines | src/pages/BusinessPlanAnalysis.tsx:166-243 | overview line i shows the labelled key, its score, a bar of ten times the score and the score's colour; strength card i shows the stored strength's title, score, description and details with the badge of its score; gap card i shows every field of the stored gap, its severity's icon colour and badge, and its missing elements (none when absent) |
| AnalysisViewer.ScreenOf | src/pages/BusinessPlanAnalysis.tsx:75-105 | spinner iff loading; "not found" iff loaded with no record; placeholder iff the record is processing; the report of the record otherwise |
| AnalysisViewer.AfterFetch | src/pages/BusinessPlanAnalysis.tsx:21-37 | loading ends either way; a fetched row replaces the record; an error keeps the record |
| AnalysisViewer.AfterUpdate | src/pages/BusinessPlanAnalysis.tsx:42-56 | an update for the page's id replaces the whole record; other rows leave the state unchanged |
| AnalysisViewer.AfterUpdates | src/pages/BusinessPlanAnalysis.tsx:52-54 | the update callback applied to each delivered row in order; its contract is stated by `LastArrivalWins` |
| AnalysisViewer.LastIndexFor | src/pages/BusinessPlanAnalysis.tsx:52-54 | the position of a delivered row with the id after which no row has it, or -1 when no row has it |
| AnalysisViewer.LastFor | src/pages/BusinessPlanAnalysis.tsx:52-54 | the row at `LastIndexFor`: a delivered row with the id after which no delivered row has the id; none exactly when no delivered row has the id |
| AnalysisViewer.LastArrivalWins | src/pages/BusinessPlanAnalysis.tsx:52-54 | after a run of updates the page shows the last row delivered for its id, or what it showed before if none was; loading is untouched |
| AnalysisViewer.FetchUpdateRace | src/pages/BusinessPlanAnalysis.tsx:21-56 | whichever of fetch and update settles last decides the record, but a failed fetch never erases a delivered row |
| AnalysisViewer.AnalysisPage.constructor | src/pages/BusinessPlanAnalysis.tsx:13-19 | a mounted page has no record and is loading |
| AnalysisViewer.AnalysisPage.OnFetchSettled | src/pages/BusinessPlanAnalysis.tsx:21-37 | the state becomes `AfterFetch` of the old state; a failure also yields the "Failed to load analysis" toast |
| AnalysisViewer.AnalysisPage.OnRowUpdated | src/pages/BusinessPlanAnalysis.tsx:52-54 | the state becomes `AfterUpdate` of the old state |
| UploadSubmitter.DecimalDigits | src/pages/BusinessPlanUpload.tsx:47 | the rendering of a clock reading is a non-empty string of digits |
| UploadSubmitter.DecimalRoundTrip | src/pages/BusinessPlanUpload.tsx:47 | reading the rendered digits back gives the clock reading |
| UploadSubmitter.StoragePath | src/pages/BusinessPlanUpload.tsx:47 | owner id, a slash, the clock reading in decimal, an underscore and the file name; its contract is stated by `StoragePathLayout` and `StoragePathDeterminesClock` |
| UploadSubmitter.StoragePathLayout | src/pages/BusinessPlanUpload.tsx:47 | the path lies in the owner's folder, then holds the decimal clock reading and an underscore, and ends with the file's name |
| UploadSubmitter.StoragePathDeterminesClock | src/pages/BusinessPlanUpload.tsx:47 | two paths for the same owner and file name are equal only if the clock readings are equal |
| UploadSubmitter.Truncate | src/pages/BusinessPlanUpload.tsx:77 | a prefix of the text, of the text's length or 50000 UTF-16 code units, whichever is smaller |
| UploadSubmitter.TruncateProperties | src/pages/BusinessPlanUpload.tsx:77 | texts of at most 50000 code units are kept whole, the result is at most 50000 code units long, and truncation is idempotent |
| UploadSubmitter.TruncateSplitsSurrogatePair | src/pages/BusinessPlanUpload.tsx:77 | when the 50000th code unit is the high half of a surrogate pair, the forwarded text ends with that lone half |
| UploadSubmitter.RecordFor | src/pages/BusinessPlanUpload.tsx:58-67 | the insert payload is `processing` and carries the owner, name, path, size and type |
| UploadSubmitter.FileSteps | src/pages/BusinessPlanUpload.tsx:45-89 | a prefix of store, insert, invoke, success toast, navigate; it stops after the failing call, and that call's message is the failure |
| UploadSubmitter.BatchFrom | src/pages/BusinessPlanUpload.tsx:45-89 | the files from index i on, one after another, stopping at the first failure; its contract is stated by the `Batch…` lemmas |
| UploadSubmitter.ErrorToast | src/pages/BusinessPlanUpload.tsx:92 | the error toast is never empty: the error's message, or "Failed to upload and analyze files" for an empty one |
| UploadSubmitter.UploadEffects | src/pages/BusinessPlanUpload.tsx:39-96 | with no user or no files nothing happens |
| UploadSubmitter.FirstFailure | src/pages/BusinessPlanUpload.tsx:45-90 | every file before the index goes through, and the file at the index fails |
| UploadSubmitter.ProjectionsDistribute | src/pages/BusinessPlanUpload.tsx:45-89 | the attempted uploads, requested inserts and worker invocations of a concatenation are the concatenations of the parts |
| UploadSubmitter.FileStepsProjections | src/pages/BusinessPlanUpload.tsx:47-81 | an upload is always attempted; an insert is requested unless the upload failed; the worker is invoked unless the upload or the insert failed |
| UploadSubmitter.BatchReportsFirstFailure | src/pages/BusinessPlanUpload.tsx:45-92 | the batch reports the error of the first failing file, and no error when none fails |
| UploadSubmitter.BatchStoresUpToFailure | src/pages/BusinessPlanUpload.tsx:45-52 | an upload is attempted for exactly the files up to and including the first failing one, in order |
| UploadSubmitter.BatchRecordsBeforeFailure | src/pages/BusinessPlanUpload.tsx:45-71 | an insert is requested for every file before the failing one, and for the failing one after its upload succeeded; nothing is rolled back |
| UploadSubmitter.BatchDispatchesBeforeFailure | src/pages/BusinessPlanUpload.tsx:45-81 | the worker is invoked for every file before the failing one, and for the failing one only when that invocation itself failed |
| UploadSubmitter.KeepOthers | src/pages/BusinessPlanUpload.tsx:154 | the files whose position differs from the index, in order; never longer than the list; its contract is stated by `KeepOthersDropsIndex` and `KeepOthersOutside` |
| UploadSubmitter.KeepOthersDropsIndex | src/pages/BusinessPlanUpload.tsx:154 | removing at a valid index drops exactly that file and keeps the rest in order |
| UploadSubmitter.KeepOthersOutside | src/pages/BusinessPlanUpload.tsx:154 | removing at an index outside the list changes nothing |
| UploadSubmitter.ProcessFile | src/pages/BusinessPlanUpload.tsx:46-88 | the loop body makes exactly the calls of `FileSteps`, and reports the same failure |
| UploadSubmitter.UploadPage.ChooseFiles | src/pages/BusinessPlanUpload.tsx:16-29 | a chosen list replaces the selection; an event without files leaves it |
| UploadSubmitter.UploadPage.RemoveFile | src/pages/BusinessPlanUpload.tsx:154 | the file at a valid index leaves the selection and the others keep their order |
| UploadSubmitter.UploadPage.HandleUpload | src/pages/BusinessPlanUpload.tsx:39-96 | the calls made are `UploadEffects` of the selection, plus the error toast after a failure; the busy flag ends cleared whenever an upload ran |
| AgentChat.TrimStart | src/pages/AgentChat.tsx:146-147 | the longest suffix that does not start with white space; everything removed is white space |
| AgentChat.TrimEnd | src/pages/AgentChat.tsx:146-147 | the longest prefix that does not end with white space; everything removed is white space |
| AgentChat.Trim | src/pages/AgentChat.tsx:146-147 | `TrimStart` then `TrimEnd`; its contract is stated by the `Trim…` lemmas |
| AgentChat.TrimIsWindow | src/pages/AgentChat.tsx:146-147 | the trimmed input is a contiguous window of the input, starting where the leading white space ends |
| AgentChat.TrimDropsOnlySpace | src/pages/AgentChat.tsx:146-147 | everything outside that window is white space |
| AgentChat.TrimEndsWithContent | src/pages/AgentChat.tsx:146-147 | a non-empty trimmed input neither starts nor ends with white space |
| AgentChat.TrimEmptyIff | src/pages/AgentChat.tsx:146 | the trimmed input is empty exactly when the input has no character other than white space |
| AgentChat.TrimIdempotent | src/pages/AgentChat.tsx:147 | trimming twice is trimming once |
| AgentChat.SubmitGuard | src/pages/AgentChat.tsx:144-149 | a message is sent iff no send is pending and the input has a character that is not white space; what is sent is the trimmed input, which is non-empty and has no surrounding white space |
| AgentChat.AgentFor | src/pages/AgentChat.tsx:11-36 | a missing or empty agent type falls back to the co-founder; a known type gets its entry; an unknown type gets none |
| AgentChat.Context | src/pages/AgentChat.tsx:107-110 | one entry per message, in order, with the message's role and content |
| AgentChat.BuildContext | src/pages/AgentChat.tsx:107-110 | the fetched messages (none if not loaded) projected in order, followed by the new message with role user |
| AgentChat.ContextAppend | src/pages/AgentChat.tsx:107-110 | projecting a concatenation is concatenating the projections |
| AgentChat.NextContextExtends | src/pages/AgentChat.tsx:107-110 | after a stored turn is fetched again, the next context starts with exactly this turn's context |
| AgentChat.ErrorText | src/pages/AgentChat.tsx:139-141 | the toast is the error's message, or "Failed to send message" when it has none |
| AgentChat.TurnOf | src/pages/AgentChat.tsx:92-134 | without conversation or user nothing is stored or called; the user message is stored first and the reply second; the agent is called once exactly when the user message was stored; the reply is stored exactly when the agent answered and the insert succeeded; each failure reports its own message |
| AgentChat.MessageStore.Insert | src/pages/AgentChat.tsx:96-131 | the row is appended unless the database reports an error, which is passed back |
| AgentChat.ChatSession.constructor | src/pages/AgentChat.tsx:28-33 | empty input, nothing pending, the conversation from the URL |
| AgentChat.ChatSession.Edit | src/pages/AgentChat.tsx:224 | only the input changes |
| AgentChat.ChatSession.ConversationCreated | src/pages/AgentChat.tsx:66 | only the current conversation id changes |
| AgentChat.ChatSession.MessagesFetched | src/pages/AgentChat.tsx:73-88 | the fetched messages become the page's messages |
| AgentChat.ChatSession.HandleSubmit | src/pages/AgentChat.tsx:144-149 | starts exactly the send `SubmitGuard` allows; the send in flight holds the trimmed message with the conversation id and messages of that moment |
| AgentChat.ChatSession.Settle | src/pages/AgentChat.tsx:91-142 | runs the send in flight with the message, conversation id and messages it captured: the store gains exactly the rows of `TurnOf`, the agent gets exactly its calls; success clears the input and invalidates the messages; an error keeps the input and toasts `ErrorText` of the message; nothing is pending afterwards |
| DocumentsHubPage.RenderHub | src/pages/DocumentsHub.tsx:30-43 | each hub dispatches to its own module and no other |
| DocumentsHubPage.WithoutId | src/pages/DocumentsHub.tsx:26-28 | the queue never grows |
| DocumentsHubPage.WithoutIdMembers | src/pages/DocumentsHub.tsx:26-28 | a toast is kept exactly when its id differs |
| DocumentsHubPage.WithoutIdDistributes | src/pages/DocumentsHub.tsx:26-28 | removal distributes over concatenation, so the kept toasts stay in order |
| DocumentsHubPage.WithoutAbsentId | src/pages/DocumentsHub.tsx:26-28 | removing an id no toast has changes nothing |
| DocumentsHubPage.WithoutIdIdempotent | src/pages/DocumentsHub.tsx:26-28 | removing an id twice is removing it once |
| DocumentsHubPage.SameMillisecondToastsCloseTogether | src/pages/DocumentsHub.tsx:21-28 | two toasts added in the same millisecond are removed together, and the rest of the queue is kept |
| DocumentsHubPage.DocumentsHub.constructor | src/pages/DocumentsHub.tsx:18-33 | the page opens on a freshly mounted plans hub with no toasts and no pending timers |
| DocumentsHubPage.DocumentsHub.AddToast | src/pages/DocumentsHub.tsx:21-24 | exactly one toast, stamped with the clock, is appended; earlier toasts and the hub are unchanged |
| DocumentsHubPage.DocumentsHub.RemoveToast | src/pages/DocumentsHub.tsx:26-28 | the queue becomes `WithoutId` of the old queue |
| DocumentsHubPage.DocumentsHub.SelectHub | src/pages/DocumentsHub.tsx:30-65 | a click sets the active hub and keeps the toasts; coming back to plans mounts a plans hub in its initial state; leaving plans while it generates leaves its timer pending |
| DocumentsHubPage.DocumentsHub.PlansGenerationFinished | src/modules/plans/PlansApp.tsx:28-33 | the mounted plans hub shows the canned assumptions in validated mode and stops loading; its success toast is appended to the queue |
| DocumentsHubPage.DocumentsHub.OrphanGenerationFinished | src/modules/plans/PlansApp.tsx:28-33 | the timer of an unmounted plans hub only appends its success toast; the mounted plans hub is untouched |
| DocumentsHubPage.DocumentsHub.PlansClearAssumptions | src/modules/plans/PlansApp.tsx:36-40 | the mounted plans hub's dashboard is cleared and its info toast is appended to the queue |
| PlansHub.SetField | src/modules/plans/PlansApp.tsx:91-132 | the edited field takes the new value and every other field keeps its own |
| PlansHub.GenerateEnabled | src/modules/plans/PlansApp.tsx:141 | the generate button is enabled exactly when nothing is loading and the problem and the solution are both non-empty |
| PlansHub.OptionalFieldsDoNotGate | src/modules/plans/PlansApp.tsx:141 | editing market or advantage never enables or disables generation |
| PlansHub.HighRisk | src/modules/plans/PlansApp.tsx:183 | an assumption is listed exactly when it is high risk |
| PlansHub.HighRiskDistributes | src/modules/plans/PlansApp.tsx:183 | the filter distributes over concatenation, so the original order is kept |
| PlansHub.HighRiskKeepsAllHigh | src/modules/plans/PlansApp.tsx:183 | a list of only high-risk assumptions is listed whole |
| PlansHub.ScreenOf | src/modules/plans/PlansApp.tsx:67-216 | form iff fast-track, with enabled iff not loading and problem and solution filled; dashboard iff validated with assumptions, counting all and listing the high-risk ones; banner iff validated with none |
| PlansHub.GeneratedDashboardShowsAll | src/modules/plans/PlansApp.tsx:9-13 | after a generation the dashboard counts three and lists all three canned assumptions |
| PlansHub.PlansApp.constructor | src/modules/plans/PlansApp.tsx:16-24 | fast-track, no assumptions, empty form, not loading |
| PlansHub.PlansApp.ClickGenerate | src/modules/plans/PlansApp.tsx:139-142 | loading starts exactly when the button is enabled; nothing else changes |
| PlansHub.PlansApp.GenerationFinished | src/modules/plans/PlansApp.tsx:28-33 | only while a generation is pending: the three canned assumptions, validated mode, loading over, and the success toast to post |
| PlansHub.PlansApp.ClearAssumptions | src/modules/plans/PlansApp.tsx:36-40 | no assumptions, fast-track mode, and the info toast to post |
| PlansHub.PlansApp.SetMode | src/modules/plans/PlansApp.tsx:46-56 | only the mode changes; assumptions are untouched |
| PlansHub.PlansApp.EditField | src/modules/plans/PlansApp.tsx:91-132 | the form becomes `SetField` of the old form; nothing else changes |

## Left out

- Rendering is not modelled: JSX layout, CSS classes, icons and the component tree. Only the values that decide what is shown are modelled.
- The worker's system prompt is not modelled. It is a constant string that only the gateway reads. `GatewayRequest` records the user turn and the fixed parameters.
- The logging is not modelled: `console.error`, and reading the gateway's error text. Neither changes any outcome.
- The lengths of the delays are not modelled: the 1-second navigation timer of the upload page and the 2-second generation timer of the plans hub. The navigation is recorded as a `NavigateLater` effect. The plans timer firing is `PlansGenerationFinished` for the mounted plans hub and `OrphanGenerationFinished` for an unmounted one.
- The worker's database client is not modelled beyond its constructor's two checks (an empty URL, an empty key). The client library is otherwise not part of this model.
- The decks, proposals and forms sub-products are not modelled. The hub dispatches to them, and they are outside this model's core.
- `formatFileSize` is not modelled: it is floating-point display formatting.
- The rejection of `file.text()` on the upload page is not modelled. Every file's text is an input that decodes successfully.
- The realtime channel's lifecycle (subscribe and `removeChannel` on unmount) is not modelled. Only the delivered update events are.
- The conversation query of the chat page is not modelled: it fetches a conversation or creates one titled after the agent. Only its effect of setting the current conversation id is modelled (`ConversationCreated`).
- The refetch after `invalidateQueries` is not modelled. It shows up as the `stale` flag, and its result as `MessagesFetched`.
- A chat reply whose `message` is missing is not modelled, and neither is the insert of such a reply without content. The agent's reply is always a string.
- The Toast component's 5-second auto-dismiss is not modelled. It lives outside the hub page. It calls `removeToast`, which is modelled.
- `AgentChat.AgentFor`: this does not model keys inherited from `Object.prototype` (such as `constructor`), which the source's plain-object lookup would also find. Such a key is treated as unknown.
- JSON values of the wrong type in the model output are not modelled. This covers a string score, a non-object `dimensional_scores`, and a JSON `null` where a key is expected; the model treats each key as present with the expected type or absent. Fractional scores are modelled as integers.
- `market_analysis` is computed on the analysis page but never rendered. It appears only in the record's columns.
- The `default` branch of `renderActiveHub` is not modelled: no value of the closed `HubModule` type reaches it.
- `UploadSubmitter.UploadEffects`: its own contract states only the no-op case. The contents of the batch are stated by the `Batch…` lemmas and `FileSteps`.
