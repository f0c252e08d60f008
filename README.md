# StudySensAI core, modelled in Dafny

StudySensAI is a study-companion web front end. This project models the parts of it that hold state or compute something:

- **`MyOAuthProvider`** (`src/scripts/oauth_provider.ts`), the Notion OAuth connection flow, in `oauth_provider.dfy`:
  - it builds the consent URL;
  - it takes the authorization code out of the redirect and exchanges it at the token endpoint;
  - it upserts the connection into `notion_connections`, keyed by (user, workspace);
  - it searches Notion with the new token and inserts one `notion_pages` row per page result;
  - it reads the access token back.
  The two tables are fields of the class `NotionOAuthProvider`. The token endpoint, the Notion search and the store's error replies are parameters. `HandleRedirect` also returns the list of outbound requests it made.
- **`QuizModule`** in `quiz_module.dfy`: a class with the mode, the question index, the chosen answers and the explanation flag, one method per handler, and the scoring loop, which is proved against a set-based count.
- **`ChatInterface`** in `chat_interface.dfy`:
  - a class with the message log, the text box and the document selection;
  - `String.prototype.trim` and its blank-input test;
  - the scheduled assistant reply, modelled as a separate delivery step.
- **`Dashboard`** in `dashboard.dfy`, pure:
  - `formatTimeAgo`, with a parser that shows the text determines the bucket and the count;
  - the `recentDocuments` fallback;
  - the rounded quiz percentage.
- **`DocumentLibrary`** in `document_library.dfy`: the `dragActive` flag as a class, with the event replay and its "last decisive event wins" lemma.
- **`mapSupabaseUser`** (`src/scripts/mapuser.ts`) in `mapuser.dfy`, pure.

Shared helpers:

- `wrappers.dfy`: `Option`, `Result`, `Outcome`.
- `rounding.dfy`: JavaScript's `Math.round` of a percentage, written in integers.
- `search_params.dfy`: `URLSearchParams` `get`/`set` on an ordered list of pairs.

The model follows the code, including these points:

- After a successful token exchange, a failed page search or a failed page insert fails the whole redirect (`SaveOutcome`). Page discovery is not best-effort.
- Page rows are attributed to the fixed user id `165dba29-36eb-4e88-9889-81a61b0ef3a0` (`PageRowUserId`), not to the connecting user.
- An upsert error is reported only after the page insert has run.
- `getAccessToken` uses `maybeSingle`, so a user with connections to two workspaces gets a store error (`SecondWorkspaceBreaksLookup`).

## Model

| member | source | states |
|---|---|---|
| Rounding.RoundedPercent | src/components/QuizModule.tsx:85 | the result is the integer nearest to 100·part/whole, with halves going up, as `Math.round` does |
| Rounding.RoundedPercentUnique | src/components/QuizModule.tsx:85 | no other integer is within one half of 100·part/whole, so the rounding is determined |
| Rounding.RoundedPercentInRange | src/components/QuizModule.tsx:85 | a part between 0 and the whole rounds to a percentage between 0 and 100 |
| Rounding.RoundedPercentExtremes | src/components/QuizModule.tsx:85 | all of the whole is 100 percent and none of it is 0 percent |
| SearchParams.GetFindsFirst | src/scripts/oauth_provider.ts:53 | `get` returns nothing exactly when no pair has the name; otherwise it returns the value of the first pair with that name |
| SearchParams.RemoveAll | src/scripts/oauth_provider.ts:39-43 | removing a name keeps every pair with another name and no pair with this one, and `get` of every other name is unchanged |
| SearchParams.Set | src/scripts/oauth_provider.ts:39-43 | `set` of a name not yet present appends the pair at the end |
| SearchParams.GetAfterSet | src/scripts/oauth_provider.ts:39-43 | after `set`, `get` of that name returns the new value and `get` of any other name is unchanged |
| SearchParams.GetDistinct | src/scripts/oauth_provider.ts:39-43 | in a query whose names are distinct, `get` of each pair's name returns that pair's value |
| OAuthProvider.ProviderError.Message | src/scripts/oauth_provider.ts:54 | the thrown messages are non-empty, and the token-exchange message ends with the response body |
| OAuthProvider.AuthorizationUrl | src/scripts/oauth_provider.ts:37-43 | the five `set` calls on the authorize endpoint produce exactly client_id, response_type=code, owner=user, redirect_uri and scope, in that order |
| OAuthProvider.AuthorizationUrlParameters | src/scripts/oauth_provider.ts:38-43 | `get` of each of the five names on the URL returns the configured value, and the URL carries no `code` |
| OAuthProvider.AuthorizationQuery | src/scripts/oauth_provider.ts:39-43 | setting five distinct names on an empty query appends them in order |
| OAuthProvider.AuthorizationCode | src/scripts/oauth_provider.ts:53-54 | a code is accepted only when the redirect's `code` parameter is present and non-empty, and it is that parameter's value |
| OAuthProvider.TokenRequestFor | src/scripts/oauth_provider.ts:58-73 | the exchange is an authorization_code grant for this code and the configured redirect URL, posted to the token endpoint with the client id and secret as Basic credentials |
| OAuthProvider.ConnectionRow | src/scripts/oauth_provider.ts:93-119 | the row copies the response's access token, token type, refresh token, bot id, workspace name and icon, duplicated template id, request id and raw body, and the save time; the owner type is the owner's `type`, empty without an owner; without an owner user every owner-user column is empty, and with one they hold its object, id, name, avatar and type, and the email column is that user's `person.email`, empty when the user has no `person` |
| OAuthProvider.Upserted | src/scripts/oauth_provider.ts:95-122 | after the upsert, (user, workspace) holds the new row, the key set gains at most that key, and every other row is unchanged |
| OAuthProvider.RegrantReplacesRow | src/scripts/oauth_provider.ts:95-122 | two grants for the same user and workspace leave one row, and it holds the second grant |
| OAuthProvider.Pages | src/scripts/oauth_provider.ts:137-139 | a result is kept exactly when its `object` is "page" |
| OAuthProvider.PagesKeepsEachPage | src/scripts/oauth_provider.ts:137-139 | the filter keeps each page result as often as it occurs and drops every other result |
| OAuthProvider.PagesOfOne | src/scripts/oauth_provider.ts:137-139 | a single result is kept exactly when it is a page |
| OAuthProvider.PagesConcat | src/scripts/oauth_provider.ts:137-139 | filtering a concatenation concatenates the filtered parts, so kept results stay in input order |
| OAuthProvider.PageName | src/scripts/oauth_provider.ts:148 | the page name is the first title's plain text when that is non-empty, and "Untitled" otherwise; it is never empty |
| OAuthProvider.PageRowFor | src/scripts/oauth_provider.ts:145-149 | a page row carries the fixed user id and the page's id, and its name is never empty |
| OAuthProvider.PageRows | src/scripts/oauth_provider.ts:145-149 | the i-th row is built from the i-th page result, so rows keep the results' order and multiplicity |
| OAuthProvider.PageRowsFromPages | src/scripts/oauth_provider.ts:142-150 | every inserted row carries the fixed user id, and a row is inserted exactly when it is built from a page result |
| OAuthProvider.PagesAfterDiscovery | src/scripts/oauth_provider.ts:129-155 | page rows are appended when the search succeeds and the insert does not fail; otherwise the page table is unchanged |
| OAuthProvider.RediscoveryDuplicates | src/scripts/oauth_provider.ts:142-150 | a second discovery with the same results stores each page row twice |
| OAuthProvider.SaveOutcome | src/scripts/oauth_provider.ts:129-162 | the save succeeds exactly when the search, the insert and the upsert all succeed; on failure the search error comes first, then the insert error, then the upsert error, which is reported once the search and the insert have succeeded |
| OAuthProvider.UpsertFailureStillDiscovers | src/scripts/oauth_provider.ts:142-162 | a failed upsert still lets the pages be inserted, and the save then fails with the upsert error |
| OAuthProvider.UserKeys | src/scripts/oauth_provider.ts:169-173 | the rows the query selects are exactly the stored rows of that user |
| OAuthProvider.LookupAccessToken | src/scripts/oauth_provider.ts:168-188 | a read error is rethrown; more than one matching row is a store error; with at most one row every other failure is "No access token", which covers no row and a row with an empty token; otherwise the result is the token of the user's only row |
| OAuthProvider.SavedTokenIsReadable | src/scripts/oauth_provider.ts:95-188 | after saving a non-empty token, and with no row for the user in another workspace, the token reads back |
| OAuthProvider.SecondWorkspaceBreaksLookup | src/scripts/oauth_provider.ts:168-178 | once the user has rows for two workspaces, reading the token fails with a multiple-rows store error |
| OAuthProvider.NotionOAuthProvider.constructor | src/scripts/oauth_provider.ts:20-32 | the provider starts with the given configuration and table contents |
| OAuthProvider.NotionOAuthProvider.RedirectToAuthorization | src/scripts/oauth_provider.ts:37-47 | the logged URL is the authorization URL for the configuration |
| OAuthProvider.NotionOAuthProvider.HandleRedirect | src/scripts/oauth_provider.ts:52-87 | a missing code fails with no request made and nothing stored; a non-2xx or unparsable exchange fails with only the exchange request made and nothing stored; otherwise the tokens are saved and the search is made with the new access token |
| OAuthProvider.NotionOAuthProvider.SaveTokens | src/scripts/oauth_provider.ts:92-163 | the connection table is upserted unless the upsert fails; the page table grows as `PagesAfterDiscovery` says; the outcome is `SaveOutcome` |
| OAuthProvider.NotionOAuthProvider.GetAccessToken | src/scripts/oauth_provider.ts:168-188 | the result is the lookup over the configured user's rows |
| QuizModule.CorrectAmongCounts | src/components/QuizModule.tsx:78-84 | counting one question at a time gives the size of the set of correctly answered questions; the count is at most n, is n when every answer is right and 0 when none is |
| QuizModule.AnswerMovesOneQuestion | src/components/QuizModule.tsx:54-56 | choosing an answer changes only that question's verdict, and the question becomes correct exactly when the chosen option is the right one |
| QuizModule.AnsweredCorrectly | src/components/QuizModule.tsx:80-84 | a question counts as correct only when it has an answer, and an answered one exactly when the answer is the correct option |
| QuizModule.CorrectAmong | src/components/QuizModule.tsx:78-84 | the running count over the first n questions never exceeds n |
| QuizModule.QuizSession.constructor | src/components/QuizModule.tsx:11-14 | the quiz starts on topic selection, at question 0, with no answers and the explanation hidden |
| QuizModule.QuizSession.StartQuiz | src/components/QuizModule.tsx:47-52 | a quiz starts active at the first question, with no answers and the explanation hidden, so Next is disabled and no earlier question is unanswered |
| QuizModule.QuizSession.AnswerSelect | src/components/QuizModule.tsx:54-56 | the answer to the question on screen is recorded or overwritten, every other answer and field is unchanged, Next becomes enabled, and every earlier question stays answered |
| QuizModule.QuizSession.Next | src/components/QuizModule.tsx:58-65 | before the last question it advances and hides the explanation; at the last question it shows the results; the index stays on a question; reached through the enabled button from a quiz whose earlier questions are answered, every question before the new one is answered, and Finish leaves every question answered |
| QuizModule.QuizSession.Previous | src/components/QuizModule.tsx:67-72 | after the first question it steps back and hides the explanation; at the first question nothing changes; the index changes exactly when Previous is enabled, and earlier questions stay answered |
| QuizModule.QuizSession.CheckAnswer | src/components/QuizModule.tsx:74-76 | the explanation is shown and nothing else changes, so "Check Answer" is no longer offered |
| QuizModule.QuizSession.BackToSelect | src/components/QuizModule.tsx:343 | "Try Another Quiz" returns to topic selection and keeps the rest of the state |
| QuizModule.QuizSession.HasAnswered | src/components/QuizModule.tsx:169 | true exactly when the question on screen has an answer; `AnswerSelect` makes it true and `StartQuiz` false |
| QuizModule.QuizSession.IsCorrect | src/components/QuizModule.tsx:170 | the on-screen verdict holds exactly when the results screen counts this question as correct, and it implies an answer |
| QuizModule.QuizSession.NextEnabled | src/components/QuizModule.tsx:275 | Next/Finish is enabled exactly when the question on screen is answered; when every earlier question is answered too, pressing it leaves no question up to the current one unanswered |
| QuizModule.QuizSession.PreviousEnabled | src/components/QuizModule.tsx:261 | Previous is disabled exactly on the first question, which is exactly when `Previous` leaves the index unchanged |
| QuizModule.QuizSession.CheckEnabled | src/components/QuizModule.tsx:267 | "Check Answer" is offered exactly for an answered question whose explanation is hidden |
| QuizModule.QuizSession.CalculateScore | src/components/QuizModule.tsx:78-86 | the score counts the correctly answered questions (an unanswered one is wrong) out of all questions; the percentage is the rounded share, between 0 and 100, 100 when all are right and 0 when none is |
| ChatInterface.TrimStart | src/components/ChatInterface.tsx:43 | the result is a suffix of the input, only trimmable characters are removed, and it does not start with one |
| ChatInterface.TrimEnd | src/components/ChatInterface.tsx:43 | the result is a prefix of the input, only trimmable characters are removed, and it does not end with one |
| ChatInterface.BlankTrimsAway | src/components/ChatInterface.tsx:43 | a string of trimmable characters trims to nothing |
| ChatInterface.TrimEmptyIffBlank | src/components/ChatInterface.tsx:43 | `trim` gives "" exactly when every character is whitespace or a line terminator |
| ChatInterface.LeadingBlanks | src/components/ChatInterface.tsx:43 | the count of leading characters `trim` removes is within the string, and they are all trimmable |
| ChatInterface.Trim | src/components/ChatInterface.tsx:43 | `trim` returns the slice after the leading trimmable characters and before a trimmable tail, and it neither starts nor ends with a trimmable character |
| ChatInterface.Toggled | src/components/ChatInterface.tsx:102 | clicking the selected document clears the selection, and clicking any other document selects it |
| ChatInterface.ToggleTwice | src/components/ChatInterface.tsx:102 | clicking a document twice restores its selection, and a selection of another document is cleared |
| ChatInterface.ChatSession.constructor | src/components/ChatInterface.tsx:9-18 | the chat starts with the greeting as message 1, an empty text box and no document selected; the log opens with the greeting |
| ChatInterface.ChatSession.SetInput | src/components/ChatInterface.tsx:189 | typing replaces the text box and changes nothing else |
| ChatInterface.ChatSession.Send | src/components/ChatInterface.tsx:42-65 | a blank input changes nothing; otherwise the untrimmed input is appended as a user message with id length+1, the box is cleared, a reply with id length+2 is scheduled, ids stay equal to positions, and the log still opens with the greeting |
| ChatInterface.ChatSession.DeliverReply | src/components/ChatInterface.tsx:56-64 | the canned reply is appended, with its scheduled id, after whatever the log holds, and the log still opens with the greeting |
| ChatInterface.ChatSession.KeyPress | src/components/ChatInterface.tsx:67-72 | Enter without Shift sends as `Send` does, and every other key changes nothing |
| ChatInterface.ChatSession.ToggleDocument | src/components/ChatInterface.tsx:102 | the selection toggles as `Toggled` says, and the log and the text box are unchanged |
| ChatInterface.ChatSession.PickSuggestion | src/components/ChatInterface.tsx:175 | a suggested question replaces the text box's content |
| ChatInterface.ChatSession.SendEnabled | src/components/ChatInterface.tsx:195 | the Send button is enabled exactly when the input is not blank |
| ChatInterface.ChatSession.ShowsSuggestions | src/components/ChatInterface.tsx:163 | suggestions show while the log holds one message; in a log that opens with the greeting, exactly when the greeting is the whole log |
| ChatInterface.AppendKeepsIds | src/components/ChatInterface.tsx:45-52 | appending a message whose id is the next position keeps every id equal to its position |
| ChatInterface.AppendKeepsGreeting | src/components/ChatInterface.tsx:52-63 | appending any message keeps the greeting as the log's first message |
| ChatInterface.InterleavedSendsShareAnId | src/components/ChatInterface.tsx:42-65 | two sends before the first reply arrives give the log greeting(1), first(2), second(3), reply(3): the second user message and the first reply share id 3 |
| Dashboard.DigitChar | src/components/Dashboard.tsx:32-33 | a digit renders as a decimal digit character |
| Dashboard.Decimal | src/components/Dashboard.tsx:32-33 | a count renders as decimal digits with no leading zero |
| Dashboard.DecimalRoundTrip | src/components/Dashboard.tsx:32-33 | reading the rendered digits back gives the count |
| Dashboard.AgeOf | src/components/Dashboard.tsx:28-33 | under an hour (a future date included) is "just now"; below a day it is the whole hours, 1 to 23; from a day on it is the whole days |
| Dashboard.FormatTimeAgo | src/components/Dashboard.tsx:26-34 | the text is "just now" exactly under an hour; from an hour to a day it is a numeral followed by " hours ago", and from a day on a numeral followed by " days ago" |
| Dashboard.FormatTimeAgoParses | src/components/Dashboard.tsx:26-34 | the displayed text gives back the bucket and its count, so no two buckets or counts print alike |
| Dashboard.RecentDocuments | src/components/Dashboard.tsx:41-60 | no user id gives an empty list; a response gives its `documents`, or an empty list when they are missing; a failed request keeps the previous list; so a non-empty list needs a user id and is either the fetched documents or the list already shown |
| Dashboard.FirstLoad | src/components/Dashboard.tsx:22-66 | the list loads once per mount, over the initial empty list, so a failed load shows no documents and any list shown is the fetched one |
| Dashboard.QuizPercent | src/components/Dashboard.tsx:208 | the shown percentage is the rounded share; it lies between 0 and 100 for a score within the total, and is 100 for a full score and 0 for none |
| DocumentLibrary.AfterDrag | src/components/DocumentLibrary.tsx:69-77 | dragenter and dragover set the flag; dragleave clears it; any other event type leaves it as it was |
| DocumentLibrary.Step | src/components/DocumentLibrary.tsx:69-84 | enter, over, leave and drop set the flag to a fixed value, and every other event leaves it unchanged |
| DocumentLibrary.Replay | src/components/DocumentLibrary.tsx:124-127 | after a run of events the flag is its initial value or the value some enter, over, leave or drop in the run sets |
| DocumentLibrary.ReplayFollowsLastDecisive | src/components/DocumentLibrary.tsx:69-84 | after any sequence of events the flag is what the last enter, over, leave or drop set, or its old value when there was none |
| DocumentLibrary.DragoverRepeats | src/components/DocumentLibrary.tsx:72-73 | any number of dragover events leaves the zone highlighted, as a single one does |
| DocumentLibrary.DropZone.constructor | src/components/DocumentLibrary.tsx:10 | the zone starts unhighlighted |
| DocumentLibrary.DropZone.HandleDrag | src/components/DocumentLibrary.tsx:69-77 | the flag becomes `AfterDrag` of its old value and the event type |
| DocumentLibrary.DropZone.HandleDrop | src/components/DocumentLibrary.tsx:79-84 | a drop clears the flag whatever it was |
| DocumentLibrary.DropZone.Handle | src/components/DocumentLibrary.tsx:124-127 | routing an event to its handler moves the flag one step, as `Step` says |
| MapUser.MapSupabaseUser | src/scripts/mapuser.ts:9-16 | null maps to null and only null does; the id is kept; the name and the email are the present values (an empty string kept) and "" when they are null or missing |
| MapUser.MapFromUser | src/scripts/mapuser.ts:9-16 | every application user, empty fields included, comes back from an auth user carrying its fields |
| MapUser.MapSameIff | src/scripts/mapuser.ts:13-15 | two auth users map alike exactly when their ids agree and their defaulted names and emails agree, so missing and empty fields are not told apart |

## Left out

- Network and database I/O are not modelled. The token endpoint, the Notion search, Supabase and `fetch` are parameters or inputs.
- `dotenv`, the Supabase client setup and the `console` output are not modelled.
- The Express host (`src/scripts/server.ts`) is not part of this model.
- The UI-only components are not part of this model: AuthScreen, Sidebar, ProgressTracker, MobileNav and the contexts.
- Base64 encoding of the Basic credentials, `JSON.stringify`/`JSON.parse` and percent-encoding are not modelled. The token request is a record; a parsed response is `Some(tokens)` or `None`.
- Notion search pagination (`has_more`/`next_cursor`) is not modelled. Only the first page of results is stored, as the code does.
- `workspace_id` is a required string. The SQL rule that a NULL workspace never conflicts in the upsert is not modelled.
- OAuthProvider.NotionOAuthProvider.HandleRedirect: takes the redirect URL already parsed, so `new URL(redirectUrl)` throwing on an unparsable string is not modelled.
- OAuthProvider.Upserted: a field absent from the token response is dropped from the upserted object, so on conflict the stored column keeps its earlier value; the model does not tell an absent field from a null one and writes None.
- OAuthProvider.RegrantReplacesRow: for the same reason, columns the second response leaves out keep the first grant's values in the store, while the model's row holds None for them.
- Concurrent redirects for the same user are not modelled. Each handler call runs alone.
- Dates are not modelled:
  - `new Date().toISOString()` is an input string;
  - `formatTimeAgo` takes the elapsed milliseconds as an integer;
  - an unparsable date (NaN) is not modelled.
- Floating point is not modelled. `Math.round` of a quotient is computed exactly in integers.
- Dashboard.QuizPercent: requires a positive total. With a total of 0, JavaScript shows `NaN%` for a score of 0, `Infinity%` for a positive score and `-Infinity%` for a negative one; these values are not integers and are not modelled.
- Timers, scrolling, `preventDefault` and `stopPropagation` are left out. The chat reply's one-second delay is the separate step `DeliverReply`.
- React's batching of state updates is not modelled. Each handler is a method that runs to completion.
- QuizModule.QuizSession: the question bank is a constructor argument. The component uses a fixed list of three questions.
- QuizModule: the topic cards and their counts are display data and are left out.
- DocumentLibrary: `handleFileInput` and the drop's file handling do nothing in the code, and are left out.
- DocumentLibrary: the document list and its search box are display data and are left out.
- MapUser: the auth library's user is reduced to the three fields read.
