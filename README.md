# Test plan agent backend, modelled in Dafny

The backend turns a Jira ticket into a test plan with a language model.
The model covers its core:

- **Jira client service** (`services/jira-client.js`):
  - connection set-up from the `settings` table, including host clean-up;
  - the ticket record built from an issue, with its field defaults;
  - the plain text of Atlassian Document Format descriptions;
  - extraction of acceptance criteria;
  - rewriting of lookup errors;
  - the search JQL.
- **PDF template service** (`services/pdf-service.js`):
  - section extraction from a template's text (the six heading patterns, with their `i` and `m` flags);
  - the template name derived from the file name;
  - storing and reading templates.
- **LLM provider service** (`services/llm-provider.js`):
  - the looser section resolver used for prompts;
  - the system and user prompts;
  - provider dispatch (Groq or Ollama);
  - consuming the streamed completion, and the generation result and metadata.
- **Routes:**
  - `routes/jira.js`: the ticket key format check in front of `fetchTicket`;
  - `routes/settings.js`: reading and saving the Jira and LLM settings, with secrets masked as `***`;
  - `routes/testplan.js`: the generating endpoint and the server-sent-events streaming endpoint, which choose provider, model and template and store the plan.

## Structure

| file | module | what |
|---|---|---|
| `wrappers.dfy` | `Wrappers` | `Option` and `Result` |
| `text.dfy` | `Text` | ASCII `trim`, `split`/`join`, `toUpperCase`, `indexOf`, `replace` with a string pattern, `a \|\| b` on strings |
| `store.dfy` | `Store` | the `Database` class: the `settings` map, the `templates` map, the append-only `test_plans` rows |
| `stream_events.dfy` | `StreamEvents` | the SSE events, and the `EventStream` class that holds one request's `fullContent` and written events |
| `pdf_service.dfy` | `PdfService` | heading test, `extractSections`, `saveTemplate` |
| `jira_client.dfy` | `JiraClient` | document text, acceptance criteria, ticket record, errors, host clean-up, JQL, the `JiraClientService` class |
| `llm_provider.dfy` | `LlmProvider` | `parseTemplateSections`, prompts, dispatch, the `LlmProviderService` class with `generateTestPlan` |
| `jira_routes.dfy` | `JiraRoutes` | `POST /fetch` |
| `settings_routes.dfy` | `SettingsRoutes` | `GET`/`POST /jira` and `GET`/`POST /llm` |
| `testplan_routes.dfy` | `TestPlanRoutes` | `POST /generate` and `GET /stream` |

### How the model is built

Services whose fields the source updates become classes: the database, the two service singletons and the per-request stream state.

Loops that the source runs become methods with loop invariants. Each method is proved equal to a specification function, and the properties are lemmas about that function. These loops are:

- the section extraction loop;
- the template parser loop;
- the document-text loop;
- the chunk-consuming loop.

The library calls are inputs to the model:

- Jira's `findIssue` answer (an issue, or an error message);
- the provider's stream of chunks (with an optional error after them);
- the UUID of a new row.

The SQLite tables are maps and sequences held by the `Database` object.

## Model

| member | source | states |
|---|---|---|
| Text.UpperFixedPoints | test-plan-agent/backend/src/services/jira-client.js:63 | `toUpperCase` leaves a key unchanged exactly when it has no lower-case letter, so upper-casing twice is the same as once |
| Text.OrElse | test-plan-agent/backend/src/routes/testplan.js:36 | `a \|\| b` on strings: a non-empty first operand is the result, otherwise the fallback is; the result is empty only when both are |
| Text.Trim | test-plan-agent/backend/src/services/pdf-service.js:46 | the result has no blank at either end, is empty exactly when the input is all blanks, and leaves trimmed text unchanged |
| Text.Split | test-plan-agent/backend/src/services/pdf-service.js:42 | `split` yields at least one piece and no piece holds the separator |
| Text.JoinSplit | test-plan-agent/backend/src/services/pdf-service.js:42 | joining the pieces of a split with the separator gives back the text |
| Text.SplitJoin | test-plan-agent/backend/src/services/llm-provider.js:105 | splitting a join of separator-free pieces gives back the pieces |
| Text.IndexOfFrom | test-plan-agent/backend/src/services/pdf-service.js:88 | the search behind a string `replace` finds the leftmost occurrence at or after the start, and reports none only when there is none |
| Text.DigitRun | test-plan-agent/backend/src/services/llm-provider.js:75 | the run of leading decimal digits is maximal: all digits, followed by a non-digit or the end |
| Store.SettingAfterWrite | test-plan-agent/backend/src/routes/settings.js:32-34 | after `INSERT OR REPLACE` of a settings row, reading that key gives the value written and reading any other key gives what it gave before |
| Store.Database.constructor | test-plan-agent/backend/src/database/db.js:18-60 | the tables start empty |
| Store.Database.PutSetting | test-plan-agent/backend/src/routes/settings.js:32 | an `INSERT OR REPLACE` succeeds only with a value (the `value` column is NOT NULL); it then sets that key and changes nothing else |
| Store.Database.InsertTemplate | test-plan-agent/backend/src/services/pdf-service.js:85-88 | the template row is stored under its id; the other tables are unchanged |
| Store.Database.InsertPlan | test-plan-agent/backend/src/routes/testplan.js:63-75 | the plan row is appended; the other tables are unchanged |
| Store.Database.GetTemplate | test-plan-agent/backend/src/services/pdf-service.js:113-127 | a template is found exactly when its id is stored, and it is the stored one |
| StreamEvents.StreamedChunks | test-plan-agent/backend/src/routes/testplan.js:144-147 | a client that concatenates the chunk events gets exactly the text that was generated |
| StreamEvents.EventStream.constructor | test-plan-agent/backend/src/routes/testplan.js:136 | a request starts with empty `fullContent` and no events |
| StreamEvents.EventStream.OnChunk | test-plan-agent/backend/src/routes/testplan.js:144-147 | the chunk is appended to `fullContent` and written as one chunk event |
| StreamEvents.EventStream.Send | test-plan-agent/backend/src/routes/testplan.js:167-169 | a done or error event is written; `fullContent` is unchanged |
| PdfService.HeadingPatternAtIffRegex | test-plan-agent/backend/src/services/pdf-service.js:32-38 | the computed test at one line start agrees with the regex: optional `digits.`, optional blanks, then one of the keywords, case-insensitively |
| PdfService.HeadingFromIffRegex | test-plan-agent/backend/src/services/pdf-service.js:32-38 | with the `m` flag, a match may start at any line start from a position on; the computed and regex forms agree at every position |
| PdfService.HeadingIffRegex | test-plan-agent/backend/src/services/pdf-service.js:32-38 | a line is a heading exactly when one of the six patterns matches it |
| PdfService.HeadingWithoutTerminator | test-plan-agent/backend/src/services/pdf-service.js:32-38 | on a line without `\n` or `\r`, only a match at the start counts |
| PdfService.ClassifyAt | test-plan-agent/backend/src/services/pdf-service.js:45-50 | each line is classified from its own trimmed text, in order |
| PdfService.ClassifyFacts | test-plan-agent/backend/src/services/pdf-service.js:46-64 | on split lines, body texts are non-empty, trimmed and single-line, and every heading title passes the heading test |
| PdfService.ExtractSections | test-plan-agent/backend/src/services/pdf-service.js:31-76 | the loop over lines returns the sections of the specification fold |
| PdfService.SectionsOfLines | test-plan-agent/backend/src/services/pdf-service.js:45-73 | the loop, with its final flush, equals the fold over the classified lines |
| PdfService.EmitRoundTrip | test-plan-agent/backend/src/services/pdf-service.js:52-55 | a pushed section's content is non-empty, and splitting it at newlines gives back its lines |
| PdfService.ScanTitle | test-plan-agent/backend/src/services/pdf-service.js:43-57 | the current title is that of the last heading so far, or "General" before any |
| PdfService.ScanFiling | test-plan-agent/backend/src/services/pdf-service.js:45-66 | every body line is filed, in order, under the last heading above it |
| PdfService.CloseShape | test-plan-agent/backend/src/services/pdf-service.js:51-73 | the pushed sections have non-empty content; every title after the first is a heading text and the first is "General" or a heading text; and the titles, in order, are "General" followed by the headings with some left out (those with no content under them), never reordered |
| PdfService.ExtractFilesBodyLines | test-plan-agent/backend/src/services/pdf-service.js:31-76 | the extracted sections, read back line by line, file each body line under its heading |
| PdfService.FiledLines | test-plan-agent/backend/src/services/pdf-service.js:63-64 | the filed lines, without their titles, are exactly the body lines |
| PdfService.ExtractKeepsBodyLines | test-plan-agent/backend/src/services/pdf-service.js:63-65 | no non-blank, non-heading line is lost or reordered: the sections hold exactly those lines |
| PdfService.ExtractSectionShape | test-plan-agent/backend/src/services/pdf-service.js:51-73 | every section has content; every section after the first has a heading as its title; the first has "General" or a heading; the titles keep the order of the heading lines in the text |
| PdfService.GeneralIsNotHeading | test-plan-agent/backend/src/services/pdf-service.js:43 | the default title "General" is not itself a heading |
| PdfService.NoHeadingGivesGeneral | test-plan-agent/backend/src/services/pdf-service.js:43-73 | text without headings gives one "General" section with all body lines, or none when there are none |
| PdfService.BlankLineIsBlank | test-plan-agent/backend/src/services/pdf-service.js:46-63 | a blank line is neither a heading nor content |
| PdfService.BlankTextHasNoSections | test-plan-agent/backend/src/services/pdf-service.js:63-75 | blank text gives no sections |
| PdfService.TemplateNameUnchangedIff | test-plan-agent/backend/src/services/pdf-service.js:88 | a file name is kept as it is exactly when it holds no `.pdf`; otherwise the name is four characters shorter |
| PdfService.TemplateNameStripsExtension | test-plan-agent/backend/src/services/pdf-service.js:88 | `name.pdf` is named `name` when `.pdf` occurs only at the end |
| PdfService.TemplateNameCutsFirst | test-plan-agent/backend/src/services/pdf-service.js:88 | `replace('.pdf', '')` removes the first `.pdf` and keeps everything after it, including a later `.pdf`, whenever no `.pdf` occurs earlier |
| PdfService.TemplateNameRemovesFirstOccurrence | test-plan-agent/backend/src/services/pdf-service.js:92 | `plan.pdf.pdf` is named `plan.pdf`, `q3.pdfs.pdf` is named `q3s.pdf`, and `v1.2.pdf.bak` is named `v1.2.bak` |
| PdfService.SaveTemplate | test-plan-agent/backend/src/services/pdf-service.js:78-98 | the stored and returned template has the new id, the derived name, the file name, the text and its extracted sections |
| JiraClient.NodeTextEmptyIff | test-plan-agent/backend/src/services/jira-client.js:170-177 | a node yields no text exactly when no node of its tree carries text |
| JiraClient.ChildrenTextEmptyIff | test-plan-agent/backend/src/services/jira-client.js:173-175 | children yield no text exactly when none of them carries text |
| JiraClient.ChildrenTextAppend | test-plan-agent/backend/src/services/jira-client.js:174 | the children's texts are joined without a separator |
| JiraClient.DocTextPush | test-plan-agent/backend/src/services/jira-client.js:163-165 | each top-level node adds its text and one newline |
| JiraClient.ExtractTextFromAdf | test-plan-agent/backend/src/services/jira-client.js:157-168 | the loop returns the description text of the specification function |
| JiraClient.DocTextLines | test-plan-agent/backend/src/services/jira-client.js:163-167 | with single-line nodes, the document text splits into the node texts, one line each |
| JiraClient.FindFolded | test-plan-agent/backend/src/services/jira-client.js:181 | the case-insensitive search (the `i` flag) finds the leftmost occurrence |
| JiraClient.NextBoundary | test-plan-agent/backend/src/services/jira-client.js:181 | the lazy capture stops at the first blank line or the end |
| JiraClient.AcMatch | test-plan-agent/backend/src/services/jira-client.js:181 | the regex matches exactly when the label occurs before the end; the match is the leftmost, takes the optional colon unless it is the last character, and runs to the first boundary |
| JiraClient.AcceptanceCriteria | test-plan-agent/backend/src/services/jira-client.js:179-183 | the criteria are trimmed, and empty without a match |
| JiraClient.NoLabelNoCriteria | test-plan-agent/backend/src/services/jira-client.js:182 | a description without the label has no criteria |
| JiraClient.CriteriaFromCapture | test-plan-agent/backend/src/services/jira-client.js:181-182 | the criteria are the trimmed text from after the label (and colon) to the first blank line |
| JiraClient.CriteriaUpToBlankLine | test-plan-agent/backend/src/services/jira-client.js:181-182 | "Acceptance Criteria: works" followed by a blank line gives "works" |
| JiraClient.ColonAtEndGivesColon | test-plan-agent/backend/src/services/jira-client.js:181 | a description ending right after the colon gives ":", because the lazy group needs one character |
| JiraClient.TicketOf | test-plan-agent/backend/src/services/jira-client.js:65-76 | the ticket fields are read from the issue; priority, status and assignee default to "Unknown"/"Unassigned", labels to an empty list |
| JiraClient.RewriteError | test-plan-agent/backend/src/services/jira-client.js:100-106 | a missing issue names the key as given; a 401 becomes the authentication message; anything else passes unchanged; the first rule wins |
| JiraClient.NotConfiguredPassesThrough | test-plan-agent/backend/src/services/jira-client.js:57-58 | the not-configured error reaches the caller unchanged |
| JiraClient.CleanHostOfUrl | test-plan-agent/backend/src/services/jira-client.js:18-21 | a base URL made of scheme (https, http or none), host (possibly with a port) and optional trailing slash cleans up to the bare host |
| JiraClient.CleanHostOfPaddedUrl | test-plan-agent/backend/src/services/jira-client.js:18-21 | blanks around such a base URL are trimmed away first, so the result is the same bare host |
| JiraClient.CleanHostKeepsPort | test-plan-agent/backend/src/services/jira-client.js:18-21 | ` https://jira.example.com:8443/` followed by a newline cleans up to `jira.example.com:8443`: the port is kept |
| JiraClient.JqlRoundTrip | test-plan-agent/backend/src/services/jira-client.js:118 | the text query can be read back from the JQL, and only the empty query gives the "order by" JQL |
| JiraClient.JiraClientService.constructor | test-plan-agent/backend/src/services/jira-client.js:5-8 | a client exists exactly when all three Jira settings rows exist |
| JiraClient.JiraClientService.InitializeClient | test-plan-agent/backend/src/services/jira-client.js:10-37 | with all three rows a client is built from the cleaned host and trimmed credentials; otherwise the previous client stays |
| JiraClient.JiraClientService.FetchTicket | test-plan-agent/backend/src/services/jira-client.js:55-109 | the upper-cased key is looked up only when a client exists; the result is the ticket record or the rewritten error |
| JiraClient.FetchOutcomeCases | test-plan-agent/backend/src/services/jira-client.js:55-109 | without a client every fetch fails as not configured; a found issue always gives its ticket |
| JiraRoutes.TicketKeyIffRegex | test-plan-agent/backend/src/routes/jira.js:11 | the computed key check agrees with `/^[A-Z]+-\d+$/` in both directions |
| JiraRoutes.KeyAccepted | test-plan-agent/backend/src/routes/jira.js:11 | `PROJ-123` is accepted |
| JiraRoutes.EmptyKeyRejected | test-plan-agent/backend/src/routes/jira.js:11 | the empty key is refused |
| JiraRoutes.LowerCaseRejected | test-plan-agent/backend/src/routes/jira.js:11 | a lower-case project is refused |
| JiraRoutes.SpaceRejected | test-plan-agent/backend/src/routes/jira.js:11 | a blank inside the key is refused |
| JiraRoutes.MissingDigitsRejected | test-plan-agent/backend/src/routes/jira.js:11 | a key without a number is refused |
| JiraRoutes.MissingLettersRejected | test-plan-agent/backend/src/routes/jira.js:11 | a key without a project is refused |
| JiraRoutes.SecondHyphenRejected | test-plan-agent/backend/src/routes/jira.js:11 | a second hyphen is refused |
| JiraRoutes.HandleFetch | test-plan-agent/backend/src/routes/jira.js:7-19 | a missing or malformed key gets 400 and no lookup; a valid key is looked up upper-cased, and the reply is the client's result |
| JiraRoutes.FetchRouteStatus | test-plan-agent/backend/src/routes/jira.js:11-19 | 400 with the format error exactly for a missing or malformed key; otherwise 200 with the client's result, even a failure |
| JiraRoutes.KeyIsUpperCase | test-plan-agent/backend/src/routes/jira.js:11 | a key that passes the check is unchanged by upper-casing |
| SettingsRoutes.GetJira | test-plan-agent/backend/src/routes/settings.js:9-25 | the reply gives base URL and user name ("" when missing) and always `***` for the token |
| SettingsRoutes.SaveJira | test-plan-agent/backend/src/routes/settings.js:28-43 | the three rows are written in order until one lacks a value; the client is re-initialised only when all succeeded; tables other than settings are unchanged |
| SettingsRoutes.JiraWritesOnlyJiraKeys | test-plan-agent/backend/src/routes/settings.js:32-34 | no settings row other than the three Jira keys is touched |
| SettingsRoutes.SaveThenGetJira | test-plan-agent/backend/src/routes/settings.js:14-34 | reading back a complete save shows the saved URL and user name, and the token masked |
| SettingsRoutes.PartialJiraSave | test-plan-agent/backend/src/routes/settings.js:32-34 | without a token, URL and user name are still stored and the old token row stays |
| SettingsRoutes.ReloadedFormStoresMask | test-plan-agent/backend/src/routes/settings.js:14-34 | saving the form exactly as it was read back replaces the stored token with `***`, and the view does not show it |
| SettingsRoutes.GetLlm | test-plan-agent/backend/src/routes/settings.js:52-78 | each LLM field is the stored value or its default, and the Groq key is always `***` |
| SettingsRoutes.GetLlmDefaults | test-plan-agent/backend/src/routes/settings.js:63-71 | with no rows the view is groq, `llama-3.3-70b-versatile`, 0.7, `http://localhost:11434`, `llama3.2` |
| SettingsRoutes.ApplyWritesFrame | test-plan-agent/backend/src/routes/settings.js:85-96 | a sequence of writes leaves every key it does not name unchanged |
| SettingsRoutes.ApplyWritesOk | test-plan-agent/backend/src/routes/settings.js:85-96 | a sequence of writes succeeds exactly when every value is present |
| SettingsRoutes.LlmWritesOnlyListedKeys | test-plan-agent/backend/src/routes/settings.js:85-96 | the provider row is always written; Groq and Ollama rows only when their part of the body is present; nothing else changes |
| SettingsRoutes.SaveLlm | test-plan-agent/backend/src/routes/settings.js:81-105 | the rows are written until a value is missing; on success the providers are re-initialised from the new settings, the Groq key and the Ollama URL both re-read (a missing Ollama row keeps the URL it had); on failure they are untouched |
| SettingsRoutes.SaveThenGetLlm | test-plan-agent/backend/src/routes/settings.js:85-90 | a full Groq save reads back with the saved provider, model and temperature, and the key masked |
| LlmProvider.LooseHeadingIffRegex | test-plan-agent/backend/src/services/llm-provider.js:75 | the computed heading test agrees with `/^\d+\./` or `/^[A-Z][A-Z\s]{3,}/` in both directions |
| LlmProvider.KindOfTrimmed | test-plan-agent/backend/src/services/llm-provider.js:73-75 | a trimmed non-empty line is a heading exactly when the test holds, and body text otherwise |
| LlmProvider.ParseTemplateSections | test-plan-agent/backend/src/services/llm-provider.js:60-98 | the method returns the outline of the specification function |
| LlmProvider.PartsOfLines | test-plan-agent/backend/src/services/llm-provider.js:69-87 | the loop with its final push equals the fold over the classified lines |
| LlmProvider.ScanFacts | test-plan-agent/backend/src/services/llm-provider.js:72-87 | the parts are titled by the headings in order, and each body line after a heading is filed under the last heading above it |
| LlmProvider.ParsedTitles | test-plan-agent/backend/src/services/llm-provider.js:69-97 | the titles are the headings of the text, or the seven default titles when there is none |
| LlmProvider.ParsedFiling | test-plan-agent/backend/src/services/llm-provider.js:72-87 | when there are headings, body lines before the first are dropped and the rest are filed under their heading |
| LlmProvider.NoHeadingGivesDefaults | test-plan-agent/backend/src/services/llm-provider.js:89-97 | a text without headings gives the default outline |
| LlmProvider.ResolvedNeverEmpty | test-plan-agent/backend/src/services/llm-provider.js:60-98 | the resolved outline always has at least one title |
| LlmProvider.StoredSectionsKept | test-plan-agent/backend/src/services/llm-provider.js:62-64 | a template's stored sections are used as they are |
| LlmProvider.ParsedTitlesSingleLine | test-plan-agent/backend/src/services/llm-provider.js:69-97 | on split lines, every title is a single line |
| LlmProvider.ScanTwoSections | test-plan-agent/backend/src/services/llm-provider.js:72-87 | heading, body, heading, body gives two parts of one line each |
| LlmProvider.OutlineExampleParts | test-plan-agent/backend/src/services/llm-provider.js:60-98 | "1. OVERVIEW / Some text / 2. RISKS / Risk text" resolves to two parts with their lines |
| LlmProvider.StructureBlockLines | test-plan-agent/backend/src/services/llm-provider.js:104-105 | the structure block reads back, line by line, as the section titles |
| LlmProvider.ReferenceText | test-plan-agent/backend/src/services/llm-provider.js:141 | the reference content is the template text, else the raw text, else, when both are empty, the fixed fallback "Standard test plan format"; never empty |
| LlmProvider.PromptSlots | test-plan-agent/backend/src/services/llm-provider.js:118-208 | the interpolated values: the key first and again in the "Reference to JIRA ticket" line, then summary, priority and status in that order, description and criteria with their "No ... provided" fallbacks, the structure and the reference |
| LlmProvider.UserPromptSlot | test-plan-agent/backend/src/services/llm-provider.js:118-208 | each value sits between its two fixed pieces of the user prompt |
| LlmProvider.Messages | test-plan-agent/backend/src/services/llm-provider.js:218-221 | two messages, the fixed system prompt then a user message |
| LlmProvider.Dispatch | test-plan-agent/backend/src/services/llm-provider.js:214-252 | a request is sent exactly for groq with a key, or for ollama; with the given model or the provider's default; otherwise "Groq not configured" or "Unknown provider: ..." |
| LlmProvider.OutcomeFacts | test-plan-agent/backend/src/services/llm-provider.js:210-268 | success exactly when dispatch succeeds and the stream does not fail; the content is the concatenated deltas; the metadata records provider, requested model and chunk count |
| LlmProvider.DefaultModelNotRecorded | test-plan-agent/backend/src/services/llm-provider.js:222-261 | with no model given, Groq is asked for its default model while the metadata records the empty model |
| LlmProvider.Consume | test-plan-agent/backend/src/services/llm-provider.js:228-233 | the loop accumulates the deltas, counts one token per chunk, and forwards each delta to the callback |
| LlmProvider.LlmProviderService.constructor | test-plan-agent/backend/src/services/llm-provider.js:6-10 | a Groq client exists exactly when its key row exists; the Ollama URL is the stored one or localhost |
| LlmProvider.LlmProviderService.InitializeProviders | test-plan-agent/backend/src/services/llm-provider.js:12-26 | each setting present replaces the current one; missing ones leave it |
| LlmProvider.LlmProviderService.GenerateTestPlan | test-plan-agent/backend/src/services/llm-provider.js:100-269 | the result is the specified outcome; a chat request with the dispatched model and the two messages is sent exactly when dispatch succeeds; the callback gets every delivered delta |
| TestPlanRoutes.ResolveProvider | test-plan-agent/backend/src/routes/testplan.js:35-36 | the requested provider, else the stored one, else groq; never empty |
| TestPlanRoutes.ResolveModel | test-plan-agent/backend/src/routes/testplan.js:38-47 | the requested model, else the stored model of the chosen provider (the Ollama one for any other provider), else its default; never empty |
| TestPlanRoutes.ResolveTemplate | test-plan-agent/backend/src/routes/testplan.js:26-32 | a stored template when an existing id is given, the default template otherwise |
| TestPlanRoutes.RouteModelIsSent | test-plan-agent/backend/src/routes/testplan.js:38-55 | because the route always resolves a model, the provider is asked for exactly that model |
| TestPlanRoutes.OneBodyLineGivesDefaults | test-plan-agent/backend/src/services/llm-provider.js:67-97 | a template whose text is one body line resolves to the default outline |
| TestPlanRoutes.DefaultTemplateSections | test-plan-agent/backend/src/routes/testplan.js:26 | the default template resolves to the seven default sections |
| TestPlanRoutes.ChooseModel | test-plan-agent/backend/src/routes/testplan.js:34-47 | the settings lookups give the resolved provider and model |
| TestPlanRoutes.ChooseTemplate | test-plan-agent/backend/src/routes/testplan.js:25-32 | the template lookup gives the resolved template |
| TestPlanRoutes.GenerateStatus | test-plan-agent/backend/src/routes/testplan.js:11-88 | 400 exactly for a missing ticket or a failed fetch; 200 exactly when a plan row is stored; status is 200, 400 or 500; the reply carries the row's id, content and metadata; the row records the ticket's id and the given template id |
| TestPlanRoutes.GeneratedReplyStatus | test-plan-agent/backend/src/routes/testplan.js:50-84 | after a fetch, 200 with a stored row or 500 without one |
| TestPlanRoutes.MissingTicketRefused | test-plan-agent/backend/src/routes/testplan.js:15-17 | without a ticket id the reply is 400 "Ticket ID is required" and nothing is stored |
| TestPlanRoutes.Generate | test-plan-agent/backend/src/routes/testplan.js:11-88 | the reply and the appended row are the specified outcome; other tables are unchanged; any request sent carries the fetched ticket's messages with the resolved template |
| TestPlanRoutes.GenerateFor | test-plan-agent/backend/src/routes/testplan.js:49-84 | the part after the fetch: generation, then the row and reply |
| TestPlanRoutes.StreamReplyShape | test-plan-agent/backend/src/routes/testplan.js:91-177 | refused exactly without a ticket id; otherwise chunk events then exactly one closing event; a failed fetch sends only its error; a row is stored exactly when the closing event is "done", with the streamed text as content and the done event carrying its id and metadata |
| TestPlanRoutes.StreamedReplyShape | test-plan-agent/backend/src/routes/testplan.js:136-170 | after the fetch, the events end once, and the stored content equals what the client reassembles |
| TestPlanRoutes.StreamStoresAsGenerate | test-plan-agent/backend/src/routes/testplan.js:150-165 | streaming stores the same row as the generating endpoint would for the same inputs |
| TestPlanRoutes.Stream | test-plan-agent/backend/src/routes/testplan.js:91-177 | the events written and the appended row are the specified outcome; other tables are unchanged |
| TestPlanRoutes.StreamFor | test-plan-agent/backend/src/routes/testplan.js:136-172 | the part after the fetch: chunks forwarded through the per-request stream, then the row and the done or error event |

## Left out

- I/O and framing are left out:
  - HTTP, JSON and SSE framing are not modelled; replies and events are values;
  - status codes are numbers in a record;
  - `console` logging is not modelled.
- Outside code is left out:
  - PDF reading (`pdf-parse`, `multer`, file reads) is not modelled; a template's text is an input;
  - the Jira library and the Groq/Ollama SDKs are not modelled; their answers are inputs;
  - a new row's UUID is a parameter.
- Time is left out:
  - `generationTimeMs` is not kept in the plan metadata, because it comes from the clock.
- LlmProvider.Dispatch does not model the Groq request's `temperature: 0.5` and `max_tokens: 4000`, because they are floating point and sampling parameters passed to the SDK.
- SettingsRoutes.GetLlm returns the temperature as the stored text; `parseFloat` and the `toString` of the saved number are not modelled, because they involve floating point.
- Text.Trim, Text.Upper: only ASCII blanks and letters are modelled, not the Unicode rules of JavaScript's `trim`, `toUpperCase` or the regex `\s` class.
- PdfService.LineStart: for the `m` flag of the heading patterns a line starts after `\n` or `\r` only; U+2028 and U+2029, which JavaScript also treats as line terminators there, are not modelled.
- Exceptions are left out:
  - the `try`/`catch` paths that turn a database or SDK exception into a 500 reply or an error event are not modelled;
  - the stored error text of a failed database write is not modelled; a failed settings save is `SaveFailed`.
- Stored data the core does not read back is left out:
  - the `jira_tickets` and `recent_tickets` writes of `fetchTicket` are not modelled;
  - the `raw_data` copy of the issue is not modelled;
  - `labels` is kept as a list, not as its JSON text.
- Store.Database.GetTemplate: a `sections` column that fails to parse as JSON becomes `[]` in the source. Here sections are stored as values, so that case cannot arise.
- TestPlanRoutes.Generate and TestPlanRoutes.Stream store a missing template id as "", where the source stores NULL.
- Endpoints and service calls not in the core are left out:
  - `testConnection`, `testGroqConnection`, `getProjects`, `getRecentTickets`, `getAllTemplates` and the Ollama model list;
  - the search endpoint's results; only its JQL string is modelled;
  - the history and template routes.
- Ollama's base URL is stored by the provider service but not modelled as part of a request, because the source's chat call does not use it.
- Concurrency is not modelled: the asynchronous start-up re-initialisation, and requests that overlap, are treated as sequential.
- Templates never set `rawText`. The field is modelled because the section resolver and the reference text read it, but every template built here has it empty.
