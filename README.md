# Gurukul student helper: a Dafny model

Gurukul is a student task manager written in PHP. It has a login and a
registration page, a five-hour inactivity timeout, role checks, and task
helpers that count and chart a user's tasks and assign users to managers.
Beside it sits an "AI integration" gateway in three languages: two FastAPI
apps, a Spring controller and an Express server. The gateway offers a text
endpoint, a YouTube recommendation endpoint and a combined endpoint. Behind
it are an OpenAI service, a Gemini service, a live YouTube search service and
the two canned services the FastAPI apps are actually wired to. The browser
chat page sends each message to the gateway. When the gateway cannot answer,
the page falls back to canned replies.

The model has one module per source file, plus shared modules:

- `Common`: options, results, string helpers and each language's whitespace set.
- `Json`: JSON values and HTTP responses.
- `Payloads`: the gateway's response records.
- `MockVideos`: the numbered placeholder videos.
- `Keywords`: the first-matching keyword group.
- `Php`: PHP values and ordered arrays.

Pure code is written as functions. Code that loops or updates state is
written as methods, and each method is proved against those functions:
- `GetTaskStats`, `GetDailyTaskData`, `BuildShape`, the mock generators and
  `YouTubeService.GetRecommendations` are loops.
- `$_SESSION` is the `Auth.SessionStore` object, which `CheckActivity`,
  `HandleLogin`, `AssignUser` and `AssignUserIntended` update.
- The chat page is the `AiChat.ChatPage` object.

Databases, HTTP clients, model calls, `filter_var` and `password_verify` are
function-typed parameters. Where the source raises an exception, the
parameter returns `Err` or `None`. The clock is a parameter too (`now`,
`today`), and so is the environment (a `Config` value).

Behaviours of the code that are easy to miss:
- No handler clamps `max_results`. Python's `or 10` turns 0 into 10, and a
  negative count drops videos from the end of the curated list. Node turns a
  negative count into an empty list.
- The combined endpoints await the text leg and then the search leg, one
  after the other.
- The live OpenAI, Gemini and YouTube services fall back to canned output, and
  say nothing when they do.
- Both FastAPI apps are wired to the canned `simple_*` services. Those
  services ignore their keys and never fail.
- The Java "live" helpers are placeholders that never fail.
- The Node combined endpoint answers 200 even when a leg fails; the failed
  leg's error body is embedded in the answer.
- `register.php` sends the uniqueness query only once `filter_var` has
  accepted the address. The model's `HandleRegister` asks for the answer on
  every POST. The lemma `MalformedEmailSkipsCheck` shows the difference
  cannot be seen: for a blank or malformed address the answer is ignored.
- `assignUser` binds three variables to an INSERT with two placeholders, so
  the assignment never succeeds (see "## Findings").
- The live Python YouTube client raises on an answer whose `items` is
  `null`, and gives no videos when `items` is absent.

## Model

| member | source | states |
|---|---|---|
| Php.Lookup | includes/functions.php:173 | reading a key finds it exactly when it is present, with the value stored under it |
| Php.Put | includes/functions.php:215 | `$a[$k] = $v` keeps an existing key in place or appends a new one at the end; the length grows only for a new key |
| Php.PutLookup | includes/functions.php:215 | after `$a[$k] = $v`, `$a[$k]` is `$v` and every other key reads as before |
| Php.PutDistinct | includes/functions.php:215 | assignment never duplicates a key |
| Php.NextIndex | includes/functions.php:233 | the index `$a[] = …` uses is non-negative and above every integer key |
| Php.Push | includes/functions.php:233 | `$a[] = $v` appends under a fresh index and keeps keys distinct |
| Php.PushOntoList | includes/functions.php:233 | pushing onto a list (keys 0..n-1) appends under index n, so it stays a list |
| Keywords.FirstMatch | backend/services/simple_gemini_service.py:64-81 | the index of the first keyword group found in the text; no earlier group is found |
| Keywords.WordFound | frontend/ai-chat.js:167-173 | a keyword anywhere in the text makes its group match |
| Payloads.TextResponseJson | server.py:55-57 | the text answer is exactly `{response, timestamp}` |
| Payloads.VideoJson | server.py:59-66 | a video carries the required fields; `view_count` and `duration` appear only when set |
| Payloads.VideosJson | server.py:108 | a list of videos becomes a JSON array of the same length, item by item |
| MockVideos.MockList | backend/services/youtube_service.py:51-63 | max(n, 0) placeholders; the k-th is numbered k, and each link ends in its own id |
| MockVideos.MockIdInjective | backend/services/youtube_service.py:55 | distinct numbers give distinct placeholder ids |
| MockVideos.MockListDistinct | backend/services/youtube_service.py:54-62 | no two placeholders share a video id |
| MockVideos.MockTitlesQuoteQuery | backend/services/youtube_service.py:57 | every placeholder title quotes the query |
| YouTubeLive.ThumbnailOf | backend/services/youtube_service.py:40-41 | the medium thumbnail when it is truthy, else the default one; none without thumbnails |
| YouTubeLive.MapItem | backend/services/youtube_service.py:38-48 | an item maps exactly when it has an id, a videoId and a snippet (otherwise it raises); the url embeds the id |
| YouTubeLive.MapItems | backend/services/youtube_service.py:36-49 | all items map, in order, or the first one that raises fails the whole call |
| YouTubeLive.MapItemsErrExtends | backend/services/youtube_service.py:37-39 | once a prefix of the items has raised, later items do not change the outcome |
| YouTubeLive.ParamsFor | backend/services/youtube_service.py:20-27 | the request asks for snippets of type "video" with safeSearch "moderate", carrying the query, count and key |
| YouTubeLive.ItemsResult | backend/services/youtube_service.py:37 | absent `items` give no videos, `null` raises, a list is mapped item by item |
| YouTubeLive.Recommendations | backend/services/youtube_service.py:16-49 | no key gives the placeholders; keyed: a client failure is the error, a non-200 answer the placeholders, an undecodable body the error, else the mapped items; only a keyed request can fail; every url is built from its id |
| YouTubeLive.OnlyThisRequest | backend/services/youtube_service.py:20-30 | the client is consulted only at the search endpoint with `ParamsFor` |
| YouTubeLive.NoKeyNoRequest | backend/services/youtube_service.py:17-18 | without a key the HTTP client is never consulted |
| YouTubeLive.Non200FallsBack | backend/services/youtube_service.py:31-33 | a non-200 answer silently gives the placeholders |
| YouTubeLive.YouTubeService.constructor | backend/services/youtube_service.py:12-14 | the key is the environment's and the base url the search endpoint |
| YouTubeLive.YouTubeService.GetRecommendations | backend/services/youtube_service.py:16-49 | the loop builds exactly `Recommendations` for the service's key |
| YouTubeLive.YouTubeService.MockResults | backend/services/youtube_service.py:51-63 | the loop builds exactly the placeholder list |
| SimpleYouTube.SelectCategory | backend/services/simple_youtube_service.py:38-42 | general exactly when no keyword group occurs in the lower-cased query; otherwise the first matching group |
| SimpleYouTube.MockRecommendations | backend/services/simple_youtube_service.py:30-159 | a prefix of the chosen category's list, `[:max_results]` long under Python slicing, negative counts included |
| SimpleYouTube.GetRecommendations | backend/services/simple_youtube_service.py:15-28 | always the curated list, a prefix of the selected category's catalogue, whatever the key |
| SimpleYouTube.KeyIrrelevant | backend/services/simple_youtube_service.py:15-28 | the key never changes the answer |
| SimpleYouTube.IsConfigured | backend/services/simple_youtube_service.py:161-165 | always configured |
| SimpleYouTube.CatalogueSizes | backend/services/simple_youtube_service.py:42-156 | the math list has three videos, every other list two |
| SimpleYouTube.CatalogueLinksFromIds | backend/services/simple_youtube_service.py:42-156 | every curated link is the watch url of its own id, and ids are distinct |
| SimpleYouTube.GeneralTitlesMentionQuery | backend/services/simple_youtube_service.py:135-156 | the general list quotes the query in every title |
| SimpleYouTube.MathWins | backend/services/simple_youtube_service.py:42 | a math keyword anywhere selects the math list, whatever else the query holds |
| AiService.ConfigFromEnv | backend/services/ai_service.py:14-17 | the key as read; AI_MODEL and MAX_TOKENS when set, else their defaults |
| AiService.Messages | backend/services/ai_service.py:42-53 | a system message with the context only when it is truthy, then the user's text last |
| AiService.BuildMessages | backend/services/ai_service.py:42-53 | the appends build exactly `Messages` |
| AiService.ReadCompletion | backend/services/ai_service.py:88-92 | a reply is accepted exactly on status 200 with content, which is stripped |
| AiService.OpenAiMockText | backend/services/ai_service.py:94-111 | the canned text quotes the echo and ends with the context note |
| AiService.MockText | backend/services/ai_service.py:94-111 | the canned text quotes the first 100 characters; without the error flag it ends with the context shown |
| AiService.ProcessText | backend/services/ai_service.py:24-66 | no key gives the canned reply; a live success gives the reply; any failure gives the apology |
| AiService.NoKeyNoRequest | backend/services/ai_service.py:36-38 | without a key the HTTP client is never consulted |
| AiService.ErrorTextIgnoresContext | backend/services/ai_service.py:101-102 | the apology does not mention the context |
| AiService.ServiceInfo | backend/services/ai_service.py:113-123 | the report's keys, and `api_configured` is the truthiness of the key |
| Gemini.GetApiKey | backend/services/gemini_service.py:25-42 | a truthy environment value wins, then the stripped key file; an absent or unreadable file gives none |
| Gemini.EnvTakesPrecedence | backend/services/gemini_service.py:29-31 | with a truthy environment value, the file is irrelevant |
| Gemini.BlankKeyFileUnconfigured | backend/services/gemini_service.py:36-42 | a key file of blanks leaves the service unconfigured |
| Gemini.Prompt | backend/services/gemini_service.py:62-64 | the prompt holds the text and, when truthy, the context; otherwise it is the text |
| Gemini.ReadGeneration | backend/services/gemini_service.py:100-103 | an empty generation is a failure; anything else is returned stripped |
| Gemini.BlankReplyAccepted | backend/services/gemini_service.py:100-103 | a reply of blanks is not empty, so it is returned as "" |
| Gemini.MockText | backend/services/gemini_service.py:108-125 | the canned text quotes the first 100 characters and ends with the context shown |
| Gemini.ProcessText | backend/services/gemini_service.py:44-83 | no key gives the canned reply; a live success gives the reply; any failure gives the apology |
| Gemini.EmptyGenerationApologises | backend/services/gemini_service.py:80-103 | an empty generation leads to the apology |
| Gemini.IsConfigured | backend/services/gemini_service.py:140-144 | configured exactly when a non-empty key was found |
| Gemini.ServiceInfo | backend/services/gemini_service.py:127-138 | the report's keys, and `api_configured` is `is_configured` |
| SimpleGemini.SelectTemplate | backend/services/simple_gemini_service.py:64-81 | the first keyword group found in the lower-cased text, or the general template |
| SimpleGemini.MockText | backend/services/simple_gemini_service.py:53-90 | the chosen template around the whole text, context appended; the apology quotes 100 characters |
| SimpleGemini.ContextOnlyAppends | backend/services/simple_gemini_service.py:83-85 | the context only adds a suffix to the context-free reply |
| SimpleGemini.ProcessText | backend/services/simple_gemini_service.py:38-51 | always the non-error mock: the selected template around the text, ending with the context note, with the given timestamp |
| SimpleGemini.EssayGetsWritingTemplate | backend/services/simple_gemini_service.py:74-75 | "essay" selects the writing template unless an earlier group matches |
| SimpleGemini.ServiceInfo | backend/services/simple_gemini_service.py:92-104 | the report's keys, the fixed model name, and the key's truthiness |
| SimpleGemini.IsConfigured | backend/services/simple_gemini_service.py:106-110 | always configured |
| FastApiGateway.Root | server.py:73-84 | the API name, version and endpoint map |
| FastApiGateway.HealthCheck | server.py:86-89 | always healthy |
| FastApiGateway.ServiceInfo | server.py:91-97 | embeds the text service's report and the YouTube key's truthiness |
| FastApiGateway.ProcessText | server.py:99-106 | the service's reply with 200, or 500 with the failure message; one call to the text service |
| FastApiGateway.EffectiveCount | server.py:114 | `max_results or 10`: an omitted or zero count becomes 10, anything else is kept |
| FastApiGateway.YouTubeRecommendations | server.py:108-118 | the service's list with 200, or 500; the search is called with the effective count |
| FastApiGateway.CombinedResponse | server.py:120-138 | text then search of five; 200 exactly when both succeed, with both bodies; the search is not started after a text failure |
| FastApiGateway.SimpleText | server.py:18-23 | the canned tutor wired as the text service never fails, whatever the text and context |
| FastApiGateway.WiredCombinedSucceeds | server.py:18-23 | with any text service that never fails (the canned tutor is one) and the curated search, the combined endpoint always answers 200, making two calls, with at most three videos |
| FastApiGateway.WiredProcessTextSucceeds | server.py:18-23 | as wired, process-text always answers 200 quoting the text |
| FastApiGateway.ZeroCountMeansWholeList | server.py:114 | an omitted or zero count returns the whole curated list |
| FastApiGateway.NegativeCountDropsFromEnd | server.py:114 | a negative count is not rejected; it drops that many videos from the end |
| JavaController.CallOpenAI | examples/JavaBackendController.java:162-166 | the placeholder: the first 50 characters then "..."; never fails |
| JavaController.CallYouTubeApi | examples/JavaBackendController.java:169-173 | the placeholder list; never fails |
| JavaController.GenerateMockRecommendations | examples/JavaBackendController.java:176-190 | the loop builds placeholders 1..maxResults, none for a count below 1 |
| JavaController.MockReplyText | examples/JavaBackendController.java:79-86 | the canned text echoes the first min(100, len) characters and ends with the context, or "None" when it is null |
| JavaController.ProcessText | examples/JavaBackendController.java:66-98 | 400 exactly for a null or blank text; 200 with `MockReplyText` without a key, with the keyed call's reply when it succeeds; 500 with the exception's message only for a keyed call that failed |
| JavaController.MaxResultsOrDefault | examples/JavaBackendController.java:109 | only a null count becomes 10 |
| JavaController.YouTubeRecommendations | examples/JavaBackendController.java:101-124 | 400 exactly for a null or blank query; the placeholder list without a key; with a key, one call at the defaulted count whose list is the 200 body, or whose exception gives 500 with "YouTube recommendations failed: " and its message |
| JavaController.CombinedResponse | examples/JavaBackendController.java:127-159 | validation, then the text leg, then a search of five; the first failing leg's response is returned as is |
| JavaController.Health | examples/JavaBackendController.java:41-47 | healthy, with exactly the keys status and service |
| JavaController.Root | examples/JavaBackendController.java:50-63 | the API name, version and endpoint map |
| JavaController.FixedEndpointsMatchFastApi | examples/JavaBackendController.java:41-63 | health and root answer exactly as the FastAPI app's |
| JavaController.PlaceholdersNeverFail | examples/JavaBackendController.java:162-173 | with the shipped helpers no endpoint answers 500, and a search answers 200 with the placeholder list |
| JavaController.CombinedAfterValidation | examples/JavaBackendController.java:130-148 | a text that passed validation is never rejected by the inner search |
| JavaController.ZeroMeansNoVideos | examples/JavaBackendController.java:109 | an explicit zero gives no videos, unlike Python's `or 10` |
| NodeBackend.ModelName | examples/nodejs-backend.js:61 | `AI_MODEL` when truthy, else the default model |
| NodeBackend.LiveRequest | examples/nodejs-backend.js:52-64 | the configured model, a system message exactly for a truthy context, then the user's text, and MAX_TOKENS |
| NodeBackend.ProcessText | examples/nodejs-backend.js:42-83 | 400 exactly for a falsy text; canned reply without a key; keyed: 200 with the trimmed content exactly when the completion has one, for `LiveRequest`; 500 with a fixed message only on a keyed failure |
| NodeBackend.OnlyLiveRequest | examples/nodejs-backend.js:52-66 | the completer is consulted only with `LiveRequest` |
| NodeBackend.MaxResultsOrDefault | examples/nodejs-backend.js:88 | an omitted count becomes 10, an explicit one is kept |
| NodeBackend.LiveItemJson | examples/nodejs-backend.js:109-116 | an item maps exactly when it has a snippet and an id; title, video_id and channel_name carry the item's values and are left out when undefined; thumbnail_url is the truthy medium url, else the default one (`ThumbnailOf`); the url is always set |
| NodeBackend.LiveItemsJson | examples/nodejs-backend.js:109 | every item mapped in order, or the first TypeError |
| NodeBackend.YouTubeRecommendations | examples/nodejs-backend.js:86-133 | 400 exactly for a falsy query; placeholders within the array limit, 500 past it; with a key, 200 exactly when the search answers with items that all map, the body being `LiveItemsJson` of them; 500 only with a fixed message |
| NodeBackend.CombinedResponse | examples/nodejs-backend.js:136-166 | 400 for a falsy text, else 200 embedding both legs' bodies, text then search of five |
| NodeBackend.CombinedHidesLegFailure | examples/nodejs-backend.js:145-161 | a failing text leg still gives 200, with the leg's error body embedded |
| NodeBackend.NegativeCountGivesNone | examples/nodejs-backend.js:119 | a negative count gives an empty list, not an error |
| NodeBackend.MissingVideoIdLinksUndefined | examples/nodejs-backend.js:111-115 | a missing videoId leaves `video_id` out and links to `watch?v=undefined` |
| NodeBackend.Health | examples/nodejs-backend.js:24-26 | healthy, with exactly the keys status and service |
| NodeBackend.Root | examples/nodejs-backend.js:29-39 | the API name, version and endpoint map |
| NodeBackend.FixedEndpointsMatchFastApi | examples/nodejs-backend.js:24-39 | health and root answer exactly as the FastAPI app's |
| AiChat.RepliesFor | frontend/ai-chat.js:180-181 | the category's replies; any other name gets the default ones (names inherited from `Object.prototype` excepted, see Left out) |
| AiChat.FallbackCategory | frontend/ai-chat.js:163-178 | the first keyword group found in the lower-cased message, or default exactly when none is |
| AiChat.EssayIsHistory | frontend/ai-chat.js:171 | "essay" selects the history replies unless math or biology matched first |
| AiChat.GetRandomResponse | frontend/ai-chat.js:180-183 | the reply is one of the category's replies |
| AiChat.GenerateFallbackResponse | frontend/ai-chat.js:163-178 | the reply is one of the replies of the message's category |
| AiChat.ReadBackend | frontend/ai-chat.js:109-133 | fails exactly when unreachable or not ok; a falsy response becomes the apology; never empty |
| AiChat.Admit | frontend/ai-chat.js:59-62 | a message goes out exactly when no request is pending and the trimmed input is not empty |
| AiChat.ChatPage.constructor | frontend/ai-chat.js:2-11 | an empty page with no request pending |
| AiChat.ChatPage.Type | frontend/ai-chat.js:49-56 | only the input changes |
| AiChat.ChatPage.Send | frontend/ai-chat.js:58-79 | an admitted message is appended, the input cleared and the request marked pending; otherwise nothing changes |
| AiChat.RequestFor | frontend/ai-chat.js:111-119 | the posted body is the message with the fixed context 'Student Helper AI Chat' |
| AiChat.ChatPage.Settle | frontend/ai-chat.js:79-106 | the backend's answer to the pending message's request is appended, or a fallback reply and the offline note; the page is idle again |
| AiChat.TaskShown | frontend/ai-chat.js:269-276 | 'all' shows every task; any other filter shows a task exactly when its status equals the filter |
| AiChat.FiltersSeparateTasks | frontend/ai-chat.js:269-276 | "all" shows every task; any other filter shows exactly the tasks of that status |
| Auth.SessionStore.constructor | includes/session.php:3 | a fresh session holds nothing |
| Auth.IsLoggedIn | includes/auth.php:21-24 | logged in exactly when `user_id` is set |
| Auth.IsManager | includes/auth.php:48-51 | a manager exactly when the role is 'manager' or 'super' |
| Auth.IsSuper | includes/auth.php:52-55 | super exactly when the role is 'super' |
| Auth.GetCurrentUserId | includes/auth.php:36-39 | the id exactly when logged in |
| Auth.GetCurrentUsername | includes/auth.php:42-45 | the stored name, or null |
| Auth.RoleOrder | includes/auth.php:48-69 | a super user is a manager; the default role 'user' is neither |
| Auth.GetCurrentUserRole | includes/auth.php:66-69 | the stored role, else 'user' |
| Auth.RequireLogin | includes/auth.php:27-33 | redirects to the login page exactly when not logged in |
| Auth.RequireManager | includes/auth.php:57-63 | lets through exactly a logged-in manager; anyone else goes to the dashboard |
| Auth.ManagerGuardImpliesLoginGuard | includes/auth.php:27-63 | passing the manager guard implies passing the login guard |
| SessionTimeout.Check | includes/session.php:9-23 | more than 18000 seconds since the last activity empties the session and redirects; otherwise the activity is stamped now |
| SessionTimeout.CheckActivity | includes/session.php:9-23 | the page's session becomes exactly `Check`'s |
| SessionTimeout.BoundaryIsInclusive | includes/session.php:14 | exactly five hours is still allowed, one second more is not |
| SessionTimeout.FirstCheckStamps | includes/session.php:9-23 | a session never stamped survives and is stamped |
| SessionTimeout.NextCheckMeasuresFromThisOne | includes/session.php:11-23 | after surviving, a later check expires exactly when more than five hours separate the two |
| SessionTimeout.ExpiryLogsOut | includes/session.php:15 | an expired session is logged out |
| Login.LookupError | login.php:45-70 | "Oops…" for a failed execute, "Invalid password." for one row, "Invalid email" otherwise, nothing for a failed prepare |
| Login.LoginDecision | login.php:6-76 | a logged-in visitor goes to the dashboard; a POST logs in exactly when both fields are filled, one user matches and the password verifies; otherwise the session is unchanged; "Please enter email." and "Please enter your password." exactly for blank fields; a failed lookup shows `LookupError`; no role is written |
| Login.HandleLogin | login.php:6-76 | the page's statements leave exactly `LoginDecision`'s session and page |
| Login.BlankFieldSkipsLookup | login.php:31 | a blank field never reaches the database |
| Login.LoginSurvivesTimeoutCheck | login.php:53-58 | a fresh login passes the timeout check at the same moment |
| Login.LoginGrantsNoRole | login.php:53-58 | logging in never makes a user a manager |
| Register.EmailError | register.php:14-46 | "Please enter a email." for a blank address, else "Invalid email format." for a malformed one, else "This email is already taken."; no message exactly for a filled, well-formed, untaken address |
| Register.PasswordError | register.php:54-60 | "Please enter a password." when blank, "Password must have at least 6 characters." under six bytes; no message exactly for a filled password of at least 6 bytes |
| Register.MultibytePasswordLongEnough | register.php:56 | `strlen` counts bytes: three two-byte letters pass the length check |
| Php.StrLen | register.php:56 | the UTF-8 byte count, between the length and four times it, equal to it for ASCII |
| Register.FormErrors | register.php:14-81 | the four messages: "Please enter a username." exactly for a blank name, "Please confirm password." for a blank confirmation, "Password did not match." exactly for a valid password that differs from it |
| Register.Attempt | register.php:84 | the insert is attempted exactly when no message was set, with the trimmed name and password |
| Register.ValidateEmail | register.php:14-46 | the e-mail statements give `EmailError`, keep the trimmed address exactly as `KeptEmail` says, and set the first "Oops" exactly when the query for a well-formed address could not run |
| Register.ValidatePassword | register.php:54-60 | the password statements give `PasswordError`, and an accepted password is kept trimmed |
| Register.Validate | register.php:14-81 | the statements produce exactly `FormErrors` and the values `Attempt` inserts; the first "Oops" exactly when the query for a well-formed address could not run |
| Register.HandleRegister | register.php:11-110 | the messages and the attempted insert; a redirect exactly when the insert succeeded; the second "Oops" when the insert could not run, else the first when the query could not |
| Register.FailedCheckInsertsBlankEmail | register.php:22-45 | when the uniqueness query fails, a valid form is inserted with an empty e-mail |
| Register.ValidFormKeepsEmail | register.php:37 | after a successful check the trimmed address is inserted |
| Register.MalformedEmailSkipsCheck | register.php:14-18 | a blank or malformed address is reported whatever the query says, and nothing is inserted |
| Register.TakenEmailNotInserted | register.php:34-35 | a taken address is reported and never inserted |
| TaskFunctions.GetStatusClass | includes/functions.php:22-34 | the badge class of each status; 'secondary' exactly for the others |
| TaskFunctions.LiveIsSecondary | includes/functions.php:31-32 | the Live status gets 'secondary' |
| TaskFunctions.StrLessIrreflexive | includes/functions.php:40 | string comparison is strict |
| TaskFunctions.IsOverdue | includes/functions.php:37-41 | a deadline of today is never overdue; without a deadline a task is overdue on any non-empty day |
| TaskFunctions.OverdueEdges | includes/functions.php:37-41 | a deadline of today is not overdue; a missing deadline is |
| TaskFunctions.CountStatus | includes/functions.php:66-79 | a count of rows never exceeds the rows |
| TaskFunctions.CountOverdue | includes/functions.php:81-83 | the overdue count never exceeds the rows |
| TaskFunctions.GetTaskStats | includes/functions.php:44-87 | total is the row count; each counter counts its status; overdue counts rows past their deadline that are not Completed or Live |
| TaskFunctions.StatsBounded | includes/functions.php:63-84 | the status counters together, and overdue with Live and Completed, never exceed the total |
| TaskFunctions.DayKeys | includes/functions.php:149-156 | the set of the period's day keys |
| TaskFunctions.StartDays | includes/functions.php:149-156 | one caption per day, and both maps start at zero on exactly the period's days |
| TaskFunctions.TallyRows | includes/functions.php:168-180 | created sums a day's rows; completed is the last Completed row's count; days outside the period are skipped |
| TaskFunctions.ReadBack | includes/functions.php:184-189 | for every day of the period, in order, its completed and created counts read from the maps |
| TaskFunctions.GetDailyTaskData | includes/functions.php:136-196 | three parallel lists over the period: captions, completed and created counts |
| TaskFunctions.CompletedWithinCreated | includes/functions.php:173-179 | a day's completed count never exceeds its created count |
| TaskFunctions.OutsideRowIgnored | includes/functions.php:173-179 | a row dated outside the period changes no count |
| TaskFunctions.BuildShape | includes/functions.php:212-236 | the fetch loop builds exactly the array of the requested shape |
| TaskFunctions.ShapeDistinct | includes/functions.php:212-236 | the result never has a duplicate key |
| TaskFunctions.ListShapes | includes/functions.php:231-235 | shapes 3 to 5 are lists with one entry per row, in order |
| TaskFunctions.NameMapsToLastId | includes/functions.php:213-216 | in the name-to-id shape a name maps to the id of its last row |
| TaskFunctions.StatusTypes | includes/functions.php:205 | status type 1 always; type 0 unless the user type is 1 |
| TaskFunctions.GetAllStatus | includes/functions.php:197-239 | empty for a type outside 0..3 or a failed query; otherwise the shape of the fetched rows |
| TaskFunctions.QueryFor | includes/functions.php:254-268 | type 5 lists all users; others list a manager's assignments, restricted only for a non-zero id |
| TaskFunctions.GetAssignedUsers | includes/functions.php:241-305 | empty unless a manager asks for a type in 0..5 and the query succeeds |
| TaskFunctions.AssignTable.constructor | includes/functions.php:326 | the assignment table holds the given pairs |
| TaskFunctions.InsertBindingMismatch | includes/functions.php:333-336 | the INSERT has two placeholders and three variables are bound to it |
| TaskFunctions.AssignDecisionAsWritten | includes/functions.php:318-347 | missing ids, already assigned, and otherwise an abort (PHP 8) or a failed insert; never assigned |
| TaskFunctions.AssignNeverSucceeds | includes/functions.php:331-341 | a fresh pair that the corrected call assigns is never assigned as written |
| TaskFunctions.AssignUser | includes/functions.php:314-350 | as written: the table never changes, and the session gets the message of `AssignDecisionAsWritten` |
| TaskFunctions.AssignDecision | includes/functions.php:318-347 | corrected: missing ids, already assigned, assigned, or a failed insert, each exactly in its case |
| TaskFunctions.AssignUserIntended | includes/functions.php:314-350 | corrected: the pair is added exactly on a successful insert, and the session gets the matching message |
| TaskFunctions.AssignIdempotent | includes/functions.php:326-347 | corrected: assigning keeps pairs distinct, and assigning again only reports that the pair is already assigned |
| TaskFunctions.MailStatuses | includes/functions.php:623-627 | mail status 0 always; 1 only for type 1 |
| TaskFunctions.VerifyTaskToSendMail | includes/functions.php:616-658 | `success` 0 with 'Invalid task ID' for a zero id; status 1 with the row when it has a truthy branch; status 0 with 'Branch Not Found' when it has none; status 1 with empty data when no row is found |
| TaskFunctions.MissingTaskLooksEligible | includes/functions.php:655-656 | a task that is not found reports status 1 with empty data |

## Left out

- Strings are sequences of code points. Java's and JavaScript's lengths and
  `substring` count UTF-16 units, so a text with characters outside the
  Basic Multilingual Plane is cut at a different place. Unicode-aware
  lower-casing is modelled over ASCII only.
- JavaController.CallOpenAI: takes the first 50 code points, where Java's
  `substring(0, 50)` takes 50 UTF-16 units.
- JavaController.ProcessText: the canned reply echoes the first 100 code
  points, where Java takes 100 UTF-16 units.
- NodeBackend.ProcessText: the canned reply echoes the first 100 code points,
  where JavaScript's `substring(0, 100)` takes 100 UTF-16 units.
- AiChat.RepliesFor: a name inherited from `Object.prototype` (such as
  "toString" or "constructor") is truthy in `fallbackResponses`, so
  JavaScript does not fall back to the default list and the reply is
  `undefined`. The model gives such a name the default replies. The page
  only asks for the five categories `FallbackCategory` yields.
- NodeBackend.MaxResultsOrDefault: an explicit JSON `null` count is not
  modelled; only an omitted field takes the default.
- Timestamps are opaque strings given as `now`; the clocks, `asyncio.sleep`,
  the HTTP timeouts and the chat page's one-second delay before the offline
  note are not modelled (`Settle` appends the note at once).
- Temperatures are floating point and are not modelled: the completion
  requests carry none, and the `ServiceInfo` reports leave out their
  `temperature` field. `MAX_TOKENS` is an already-parsed integer.
- Request validation by pydantic and Spring before a handler runs (a missing
  `text` gives 422), and `response_model` filtering, are not modelled; request
  bodies arrive already typed.
- Logging (`console.error`, `print`, `logger`) and the chat page's DOM
  (typing indicator, sound, button state, element presence checks,
  scrolling) are not modelled.
- NodeBackend.CombinedResponse: the legs are direct calls, not loopback
  `fetch`es; a failing `fetch` (the 'Combined response failed' path) is out.
- Register.FormErrors: the password mismatch test compares the strings
  exactly. PHP 8's `!=` compares two numeric strings as numbers, so
  "100000" and "1e5" match in the source while the model reports
  "Password did not match.".
- PHP's other loose comparison, `user_type == 1`, compares an integer.
  Numeric-string array keys are not normalised to integers.
- The SQL queries (`BETWEEN` on dates, `GROUP BY`, `ORDER BY`, joins) are
  parameters returning rows; mysqli's string-typed columns are read as typed
  values; a failing `mysqli_stmt_fetch` after one row is not modelled.
- Php.NextIndex: follows PHP before 8.3, where negative keys do not lower
  the next index below 0.
- TaskFunctions.VerifyTaskToSendMail: takes the task id as an integer, so
  PHP's truthiness test on it is the test for zero.
- `register.php`'s `print_r` before `header` and `password_hash` are not
  modelled: the insert receives the trimmed password.
- The remaining helpers of includes/functions.php are not part of this
  model: `getTasks`, `getMonthlyTaskData`, the mail functions
  (`getEmailContent`, `send_email_to_manager`, `getEmailConfiguration`,
  `sendSmtpMail`, `sendPersonalEmail`, `send_done_on_live`), `getUsers`,
  `sanitize`, `pr` and `createCurrentFile`. They are SQL, mail or file
  output without their own logic.
- frontend/script.js, notes.php and the markup pages are not part of this
  model.
- The live OpenAI and Gemini client libraries and the YouTube HTTP client are
  parameters; their wire formats are not modelled.

## Findings

| source | as written | input that shows it | evidently intended | confidence | as-written member | corrected member |
|---|---|---|---|---|---|---|
| includes/functions.php:333-336 | the INSERT into `user_assign` has two placeholders, but `mysqli_stmt_bind_param` binds three variables (`"iii"`); PHP 8 throws, and earlier versions fail the execute | any call with non-zero ids whose pair is not yet assigned (`AssignNeverSucceeds`) | the pair is inserted and "User created and assigned successfully." is set, keeping pairs distinct (`AssignIdempotent`) | high (by reading; not executed) | TaskFunctions.AssignDecisionAsWritten | TaskFunctions.AssignDecision |
