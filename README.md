# A verified model of the bamquiz quiz core

bamquiz is a history-quiz web application. This project models the parts of it whose behaviour can be stated and proved:

- **The quiz session store** (`QuizStore`). One mutable record holds the displayed and the prefetched question, the answer counter, the per-topic prompt history and its counter, the topic, the session token and two flags. Each action of the store is a method of the class `Store`. Each method is specified by the transition function `Apply`, and the lemmas prove the following:
  - the history counter always equals the history's length;
  - the answer counter only grows;
  - the session token never changes;
  - the prefetched question is handed over to the display.
- **The fallback question bank** (`QuestionBank`). Five built-in questions and a module-level set of used indices.
  - `getNextQuestion` clears the set after a full cycle and draws an unused index.
  - The proofs show that no index repeats within a cycle, that every index comes out once per cycle, and that the set is cleared when the next cycle starts.
- **The serverless question generator** (`Endpoint`, `NetlifyGenerateQuestion`, `ApiGenerateQuestion`). There are two deployments of the same handler, and they share:
  - the credential check;
  - the provider request;
  - the validation of the provider's reply;
  - the sanitiser, which trims every string and keeps `funFact`/`learnMore` only when they are truthy.

  Each deployment has its own method gating and header sets. The sanitiser is proved to produce trimmed output, and to be idempotent up to empty optional fields.
- **The connection test** (`ApiTestConnection`). A GET asks the provider for a fixed reply and checks that the reply contains "Connection successful".
- **The browser API client** (`ClientApi`).
  - `handleResponse` maps a fetched response to `{ data }` or `{ error }`.
  - `generateQuestion` builds the request body, and turns a rejected fetch into an error.
- **The database client configuration** (`SupabaseConfig`). URL normalisation (trim, strip trailing `/`, add a scheme), and the character-class check on the anonymous key.
- **The components' rules**:
  - the leaderboard's stable descending sort, top score, highlight, medals and count label (`Leaderboard`);
  - the question card's handlers over the store and the card's own state (`QuizCard`);
  - the sign-in panel's pre-checks, redirect targets, callback guard and handlers (`Auth`).

Shared modules:

- `Wrappers`: `Option` and `Result`.
- `Text`: ECMAScript `trim` over the WhiteSpace and LineTerminator code points, `startsWith`, `includes`, the trailing-slash strip, UTF-16 `length`, and decimal rendering.
- `Json`: parsed JSON values, JavaScript truthiness and property reads.
- `Quiz`: the `Question` record, with `funFact` and `learnMore` optional.

How the outside world is represented:

- The completion provider, `JSON.parse`, `JSON.stringify`, `fetch`, the `URL` constructor and the authentication service's answers are function or value parameters.
- The model states what the code does with whatever they return.
- A value thrown inside a `try` block becomes the `Failure` or `GenerationFailed` branch, carrying the thrown error's message.

## Model

| member | source | states |
|---|---|---|
| Text.TrimIsTrimmedSlice | project/netlify/functions/generate-question.js:90-93 | `trim` returns a slice of its argument with no whitespace at either end, having removed only whitespace on both sides |
| Text.TrimOfTrimmed | project/netlify/functions/generate-question.js:90-93 | a string with no whitespace at either end is returned unchanged by `trim` |
| Text.TrimSpacePadded | project/netlify/functions/generate-question.js:90-93 | one space added on each side of a trimmed non-empty string is exactly what `trim` removes again |
| Text.TrimIdempotent | project/netlify/functions/generate-question.js:90-93 | `trim` applied twice equals `trim` applied once |
| Text.TrimEmptyIff | project/netlify/functions/generate-question.js:43 | `s.trim()` is empty exactly when `s` consists of whitespace only (both directions) |
| Text.Includes | project/api/test-connection.js:62 | `s.includes(sub)` holds exactly when `sub` occurs at some position of `s` |
| Text.StripTrailingSlashes | project/src/lib/supabase.ts:11 | the result is a prefix of the input, does not end in `/`, and every character removed was a `/` |
| Text.Utf16Length | project/src/components/Auth.tsx:80 | the UTF-16 length lies between the number of code points and twice that number, and equals the number of code points when none lies above U+FFFF; a single code point counts two units when it lies above U+FFFF and one otherwise |
| Text.Utf16LengthAppend | project/src/components/Auth.tsx:80 | the UTF-16 length of a concatenation is the sum of the lengths of its parts |
| Text.NatToString | project/src/lib/api.ts:20 | the rendering of a number is a non-empty string of decimal digits with no leading zero |
| Text.NatToStringRoundTrip | project/src/lib/api.ts:20 | reading the rendered digits back gives the number again |
| Json.Member | project/netlify/functions/generate-question.js:90-95 | a property read yields a value exactly when the value is an object that has the key, and that value is the object's entry for the key |
| QuizStore.Initial | project/src/store/quizStore.ts:33-42 | the initial state has both question slots empty, both counters 0, an empty history, topic "general history", both flags false and the given session token, and it satisfies the invariant |
| QuizStore.ApplyKeepsConsistent | project/src/store/quizStore.ts:43-66 | every action preserves `questionCount == |previousQuestions|` |
| QuizStore.RunKeepsConsistent | project/src/store/quizStore.ts:43-66 | any sequence of actions preserves the invariant |
| QuizStore.ReachableIsConsistent | project/src/store/quizStore.ts:33-66 | every state reachable from the initial state satisfies the invariant |
| QuizStore.AnsweredCountCountsIncrements | project/src/store/quizStore.ts:45 | after any actions, `answeredCount` has grown by exactly the number of `incrementAnswered` calls among them, so no action lowers it |
| QuizStore.SessionIdFixed | project/src/store/quizStore.ts:39 | no action changes the session token |
| QuizStore.MoveTwiceClearsDisplay | project/src/store/quizStore.ts:63-66 | advancing moves the prefetched question into the display and empties the prefetch slot; advancing twice leaves no question displayed |
| QuizStore.SetTopicResetsHistory | project/src/store/quizStore.ts:47-51 | a topic switch sets the topic, empties the history and zeroes its counter, and leaves `answeredCount` and both question slots unchanged |
| QuizStore.Store.constructor | project/src/store/quizStore.ts:33-42 | the new store is in the initial state |
| QuizStore.Store.SetQuestion | project/src/store/quizStore.ts:43 | only `currentQuestion` changes, and it becomes the given question; the invariant is kept |
| QuizStore.Store.SetNextQuestion | project/src/store/quizStore.ts:44 | only `nextQuestion` changes, and it becomes the given question; the invariant is kept |
| QuizStore.Store.IncrementAnswered | project/src/store/quizStore.ts:45 | only `answeredCount` changes, and it rises by exactly one |
| QuizStore.Store.SetLoggedIn | project/src/store/quizStore.ts:46 | only `isLoggedIn` changes |
| QuizStore.Store.SetTopic | project/src/store/quizStore.ts:47-51 | the topic is set and the history and its counter are reset; nothing else changes |
| QuizStore.Store.SetShowAuth | project/src/store/quizStore.ts:52 | only `showAuth` changes |
| QuizStore.Store.AddPreviousQuestion | project/src/store/quizStore.ts:53-57 | the prompt is appended at the end of the history and the counter rises by exactly one; nothing else changes |
| QuizStore.Store.ClearPreviousQuestions | project/src/store/quizStore.ts:58-62 | the history is emptied and its counter zeroed; nothing else changes |
| QuizStore.Store.MoveToNextQuestion | project/src/store/quizStore.ts:63-66 | the display takes the old prefetched question and the prefetch slot becomes empty; nothing else changes |
| QuestionBank.Indices | project/src/lib/questions.ts:3-44 | the bank's indices are exactly the naturals below 5 |
| QuestionBank.BankEntriesDistinct | project/src/lib/questions.ts:3-44 | no two of the five built-in questions are equal |
| QuestionBank.UnusedIndexExists | project/src/lib/questions.ts:55-58 | while fewer than five indices are used, an unused index exists, so the redraw loop can stop |
| QuestionBank.RecordWithinIndices | project/src/lib/questions.ts:46-61 | the used set stays a subset of {0..4} |
| QuestionBank.DrawExtendsRecord | project/src/lib/questions.ts:50-61 | within a cycle, a draw yields an index not drawn before, and the used set goes on recording exactly the draws so far, none repeated |
| QuestionBank.FullCycleCoversBank | project/src/lib/questions.ts:50-52 | after five draws every index has come out once, and the next draw clears the set so that any index may come out |
| QuestionBank.FallbackBank.constructor | project/src/lib/questions.ts:46 | the used set starts empty |
| QuestionBank.FallbackBank.SelectIndex | project/src/lib/questions.ts:50-61 | a full set is cleared first; the chosen index is in range and was unused after that reset; the new set is the reset set plus that index, one element larger |
| QuestionBank.FallbackBank.GetNextQuestion | project/src/lib/questions.ts:48-64 | returns the bank entry at a freshly selected unused index, records the index as used, and ignores the topic |
| QuestionBank.CycleHandsOutEachEntryOnce | project/src/lib/questions.ts:48-63 | draws that select every index once, from a table of distinct entries, return distinct entries and include every entry |
| QuestionBank.FirstCycle | project/src/lib/questions.ts:48-63 | five consecutive draws on a fresh bank select five distinct indices that cover the whole bank |
| Endpoint.EnvOr | project/netlify/functions/generate-question.js:7-8 | the environment value is used when set and non-empty, and the fallback otherwise |
| Endpoint.QuestionRequest | project/netlify/functions/generate-question.js:52-74 | the provider request goes to the OpenRouter base URL with the fixed model and the system instruction, with `HTTP-Referer`/`X-Title` from `SITE_URL`/`SITE_NAME` (defaults https://bamquiz.com and bamquiz), and carries the trimmed key, the topic, temperature 0.3, at most 500 tokens and top_p 0.9 |
| Endpoint.TrimmedField | project/netlify/functions/generate-question.js:90 | reading and trimming a field succeeds exactly when the field is a string, and yields that string trimmed |
| Endpoint.TrimItems | project/netlify/functions/generate-question.js:91 | mapping `trim` over the options succeeds exactly when every item is a string, and keeps their count and order, each trimmed |
| Endpoint.OptionalField | project/netlify/functions/generate-question.js:94-95 | an optional field throws exactly when it is truthy and not a string; otherwise it is kept, trimmed, exactly when it is truthy |
| Endpoint.Sanitize | project/netlify/functions/generate-question.js:89-96 | the sanitiser succeeds exactly on well-formed replies, and otherwise throws; on success the required strings and every option are trimmed (count and order kept), and each optional field is present, trimmed, exactly when it is truthy in the reply |
| Endpoint.SanitizeIsSanitizedFrom | project/netlify/functions/generate-question.js:89-96 | the description of a sanitised question determines it: a well-formed reply sanitises to exactly the question it describes |
| Endpoint.QuestionJson | project/netlify/functions/generate-question.js:104 | the response object has a `funFact`/`learnMore` key exactly when the question has that field |
| Endpoint.SanitizedIsTrimmed | project/netlify/functions/generate-question.js:89-96 | every string field of a sanitised question, options included, has no whitespace at either end |
| Endpoint.ResanitizeTrimmed | project/netlify/functions/generate-question.js:89-96 | sanitising the JSON form of an all-trimmed question gives it back, except that an optional field equal to "" is dropped |
| Endpoint.ResanitizeIsIdentity | project/netlify/functions/generate-question.js:89-96 | sanitising the output of the sanitiser again returns it unchanged, except that an optional field equal to "" is dropped |
| Endpoint.WhitespaceOnlyFunFactBecomesEmpty | project/netlify/functions/generate-question.js:94 | a whitespace-only `funFact` is truthy, so it is kept, as "" |
| Endpoint.Generate | project/netlify/functions/generate-question.js:42-96 | a missing or blank key fails with "OpenRouter API key is not configured"; success requires a configured key; an unparsable request body fails with the parser's message and a `null` body with the `TypeError`; any other parsed body leads to the provider's reply for its `topic` |
| Endpoint.ReplyToGeneration | project/netlify/functions/generate-question.js:76-96 | a thrown provider call keeps its message; empty content gives "Invalid API response"; unparsable content gives "Invalid JSON response from AI"; a question comes out exactly when the content parses and sanitises, and it is the sanitised one |
| NetlifyGenerateQuestion.Handler | project/netlify/functions/generate-question.js:19-116 | every response carries the same CORS headers; 204 with an empty body exactly for OPTIONS; 405 "Method not allowed" exactly for methods other than OPTIONS and POST; a POST gives 200 with the generated question or 500 with "Failed to generate question" and the failure's details |
| NetlifyGenerateQuestion.MissingKeyFails | project/netlify/functions/generate-question.js:43-45 | a POST without a usable key is answered with 500 and details "OpenRouter API key is not configured" |
| NetlifyGenerateQuestion.SanitizeRemovesPadding | project/netlify/functions/generate-question.js:89-93 | a reply whose fields are a question's trimmed strings padded with spaces sanitises to that question |
| NetlifyGenerateQuestion.ScenarioReplyIsPadded | project/netlify/functions/generate-question.js:89-93 | the example reply is the padded form of the example question, and sanitises to it |
| NetlifyGenerateQuestion.ScenarioAnswerIsQuestionJson | project/netlify/functions/generate-question.js:104 | the example answer is the JSON form of the example question, without optional keys |
| NetlifyGenerateQuestion.AncientRomeScenario | project/netlify/functions/generate-question.js:42-105 | a POST about "Ancient Rome" whose provider reply has padded fields is answered with 200 and the trimmed question |
| ApiGenerateQuestion.Handler | project/api/generate-question.js:11-99 | 204 with the preflight headers (Max-Age 86400) and no body exactly for OPTIONS; every other answer has the JSON headers and a JSON body; 405 "Method not allowed" exactly for methods other than OPTIONS and POST; a POST gives 200 with the generated question or 500 with "Failed to generate question" and the details |
| ApiGenerateQuestion.SuccessIsSanitized | project/api/generate-question.js:75-88 | a 200 answer comes from a POST with a configured key, and every string of the returned question is trimmed |
| ApiTestConnection.ConnectionRequest | project/api/test-connection.js:36-59 | the probe request goes to the OpenRouter base URL with `HTTP-Referer`/`X-Title` from `SITE_URL`/`SITE_NAME` (defaults https://bamquiz.com and bamquiz), and carries the trimmed key, the fixed prompts, the model, at most 10 tokens, temperature 0.3 and top_p 0.9 |
| ApiTestConnection.Probe | project/api/test-connection.js:31-64 | a missing or blank key fails with "OpenRouter API key is not configured"; a thrown call keeps its message; a reply with no content, or content without "Connection successful", fails with "Unexpected response from AI service"; success happens exactly when the content contains the phrase, and returns that content |
| ApiTestConnection.FailureMessage | project/api/test-connection.js:86 | a non-empty error message is kept, and an empty one is replaced by "Connection test failed" |
| ApiTestConnection.Handler | project/api/test-connection.js:11-88 | 204 with the preflight headers exactly for OPTIONS; 405 "Method not allowed" exactly for methods other than OPTIONS and GET; 200 `{success: true, message}` exactly when the probe succeeds; otherwise 500 `{success: false, error}`; both of the last two carry `Cache-Control: no-store` |
| ApiTestConnection.FailureAlwaysExplained | project/api/test-connection.js:75-88 | a 500 answer always names a non-empty error |
| ApiTestConnection.ExpectedReplyPasses | project/api/test-connection.js:53-74 | the reply the prompt asks for passes the test and is echoed back with 200 |
| ClientApi.StatusMessage | project/src/lib/api.ts:20 | the default error message starts with "API request failed with status " followed by the status |
| ClientApi.StatusMessageNamesStatus | project/src/lib/api.ts:20 | the status can be read back from the default message |
| ClientApi.ThrownMessage | project/src/lib/api.ts:51 | an `Error` contributes its message, and anything else contributes the fallback |
| ClientApi.ErrorFromBody | project/src/lib/api.ts:19-34 | a JSON error body supplies `error`/`details` when they are truthy, with the default message and the stringified body otherwise; a text body becomes the details; a body that cannot be read or parsed, or is `null`, leaves the default error |
| ClientApi.HandleResponse | project/src/lib/api.ts:15-55 | non-ok responses always give an error; an ok JSON body gives the parsed data, or "Failed to parse response" with the parser's message; an ok text body gives the text; a failed read gives "Failed to parse response" |
| ClientApi.NonOkIsAlwaysError | project/src/lib/api.ts:19-37 | a non-ok response is never data, and its error message is truthy |
| ClientApi.OkDataIff | project/src/lib/api.ts:39-54 | an ok response yields data exactly when its body could be read and, if it is JSON, parsed |
| ClientApi.UserPromptMentionsTopic | project/src/lib/api.ts:72 | the user prompt contains the topic |
| ClientApi.RequestBody | project/src/lib/api.ts:68-73 | the request body carries the topic, and the previous prompts in order (an empty list when none are given) |
| ClientApi.GenerateQuestion | project/src/lib/api.ts:57-85 | a rejected fetch gives "Failed to generate question" with the thrown message or "Unknown error occurred"; a response is passed to `handleResponse` |
| ClientApi.TopicReachesProvider | project/src/lib/api.ts:68-75 | when the server parses back what the client serialised, the provider is asked about exactly the topic the client sent |
| SupabaseConfig.CleanUrl | project/src/lib/supabase.ts:11 | the cleaned URL is the trimmed input with its trailing `/` characters removed, so it never ends in `/` |
| SupabaseConfig.WithProtocol | project/src/lib/supabase.ts:14 | `https://` is prepended exactly when the cleaned URL does not start with "http", and the result always starts with "http" |
| SupabaseConfig.ValidateUrl | project/src/lib/supabase.ts:4-24 | a missing or empty URL fails with "Missing Supabase URL environment variable"; otherwise the normalised URL is accepted exactly when the URL constructor accepts it, and is returned; otherwise the error names the original input |
| SupabaseConfig.AcceptedUrlShape | project/src/lib/supabase.ts:11-19 | an accepted URL starts with "http", and ends in `/` only when it is the bare added scheme |
| SupabaseConfig.ValidateUrlIdempotent | project/src/lib/supabase.ts:4-24 | validating an accepted URL again returns it unchanged, when it ends in neither whitespace nor `/` |
| SupabaseConfig.MatchesKeyPattern | project/src/lib/supabase.ts:33 | the pattern `^[a-zA-Z0-9._-]+$` matches exactly the non-empty strings of those characters |
| SupabaseConfig.ValidateKey | project/src/lib/supabase.ts:27-37 | a missing or empty key fails with "Missing Supabase anon key environment variable"; otherwise the key is accepted exactly when its trimmed form matches the pattern, and the trimmed key is returned; otherwise it fails with "Invalid Supabase anon key format" |
| SupabaseConfig.BlankKeyIsInvalid | project/src/lib/supabase.ts:28-35 | a whitespace-only key is rejected as malformed, not as missing |
| SupabaseConfig.ValidateKeyIdempotent | project/src/lib/supabase.ts:32-36 | an accepted key is accepted again, unchanged |
| Leaderboard.InsertPermutation | project/src/components/SharedQuizLeaderboard.tsx:16 | inserting an attempt adds exactly that attempt |
| Leaderboard.InsertDescending | project/src/components/SharedQuizLeaderboard.tsx:16 | inserting into a score-descending list keeps it descending |
| Leaderboard.SortedIsDescending | project/src/components/SharedQuizLeaderboard.tsx:16 | the sorted attempts are in non-increasing score order |
| Leaderboard.SortedIsPermutation | project/src/components/SharedQuizLeaderboard.tsx:16 | the sorted attempts are a permutation of the input |
| Leaderboard.SortedIsStable | project/src/components/SharedQuizLeaderboard.tsx:16 | attempts with equal scores keep their original relative order |
| Leaderboard.TopScoreIsMaximum | project/src/components/SharedQuizLeaderboard.tsx:17 | the top score is 0 when there are no attempts; otherwise every score is at most the top score, and some attempt reaches it |
| Leaderboard.BadgeAt | project/src/components/SharedQuizLeaderboard.tsx:44-52 | positions 0, 1 and 2 get the gold, silver and bronze medals; any later position shows its index plus one |
| Leaderboard.AttemptWord | project/src/components/SharedQuizLeaderboard.tsx:27 | the label reads "attempt" exactly when there is one attempt |
| Leaderboard.Render | project/src/components/SharedQuizLeaderboard.tsx:26-78 | the count is the number of attempts and its label is "attempt" exactly for one attempt; the empty state is shown exactly when there are none; otherwise row `i` shows the `i`-th sorted attempt with badge `i`, highlighted exactly when its score equals the top score |
| Leaderboard.HighlightMarksBestScores | project/src/components/SharedQuizLeaderboard.tsx:36-40 | with at least one attempt, the highlighted rows are exactly those with the best score, and the first row is highlighted |
| QuizCard.AnswerCountsOnce | project/src/components/QuizCard.tsx:52-56 | answering records the option, shows the explanation, raises `answeredCount` by one, and changes nothing else in the store |
| QuizCard.ShareClickGatedBySignIn | project/src/components/QuizCard.tsx:58-65 | logged out, a share click raises the sign-in alert, sets `showAuth` and leaves the dialog closed; logged in, it opens the dialog and changes nothing else |
| QuizCard.HandlersKeepConsistent | project/src/components/QuizCard.tsx:48-93 | every card handler keeps the store's invariant |
| QuizCard.NextQuestionRecordsPrompt | project/src/components/QuizCard.tsx:74-75 | with a question displayed, every click appends its prompt to the history, advancing or not, and the spinner ends off |
| QuizCard.NextQuestionAdvancesBelowLimit | project/src/components/QuizCard.tsx:82-85 | below the limit the card shows the prefetched question and clears the selection, the explanation and the rating |
| QuizCard.NextQuestionWithoutQuestion | project/src/components/QuizCard.tsx:71-93 | without a displayed question only the spinner changes, and it ends off |
| QuizCard.RefusedClicks | project/src/components/QuizCard.tsx:77-80 | at the limit no number of clicks advances: both question slots and the selection stay, and each click records the prompt again and raises one more alert |
| QuizCard.Repeat | project/src/components/QuizCard.tsx:77-80 | `n` copies of an element, as the history and the alerts grow under refused clicks |
| QuizCard.TopicEffectAfterSetTopic | project/src/components/QuizCard.tsx:48-50 | the topic-change effect empties the history and zeroes its counter, which a topic switch has already done |
| QuizCard.QuizCard.constructor | project/src/components/QuizCard.tsx:24-28 | the card starts with no selection and no explanation, spinner, rating or dialog |
| QuizCard.QuizCard.HandleAnswer | project/src/components/QuizCard.tsx:52-56 | the new screen is the answer transition applied to the old one |
| QuizCard.QuizCard.HandleShareClick | project/src/components/QuizCard.tsx:58-65 | the new screen is the share-click transition applied to the old one |
| QuizCard.QuizCard.HandleRating | project/src/components/QuizCard.tsx:67-69 | the new screen records the rating and nothing else |
| QuizCard.QuizCard.HandleNextQuestion | project/src/components/QuizCard.tsx:71-93 | the new screen is the next-question transition applied to the old one, using the count read before the prompt is recorded |
| QuizCard.QuizCard.OnTopicChange | project/src/components/QuizCard.tsx:48-50 | the store's history is cleared and nothing else changes |
| QuizCard.QuizCard.CloseShareQuiz | project/src/components/QuizCard.tsx:194 | the share dialog closes and nothing else changes |
| Auth.AlertText | project/src/components/Auth.tsx:103 | the alert is the error's message when it is non-empty, and the fallback otherwise; it is never empty |
| Auth.SignUpCheck | project/src/components/Auth.tsx:72-82 | sign-up proceeds exactly when the service is available, both fields are non-empty and the password has at least 6 UTF-16 units; otherwise the first failing check names the error |
| Auth.SignInCheck | project/src/components/Auth.tsx:111-118 | sign-in proceeds exactly when the service is available and both fields are non-empty, with no length rule |
| Auth.SignInChecksAreWeaker | project/src/components/Auth.tsx:77-82 | whatever sign-up accepts, sign-in accepts too, and both report a missing field the same way; a 3-character password is refused only at sign-up |
| Auth.EmailRedirectTo | project/src/components/Auth.tsx:89-91 | the confirmation link returns to the page's origin on localhost, and to https://bamquiz.com otherwise |
| Auth.RedirectTo | project/src/components/Auth.tsx:37-39 | the OAuth redirect is origin + "/auth/callback" on localhost, and https://bamquiz.com/auth/callback otherwise |
| Auth.RedirectsAgree | project/src/components/Auth.tsx:37-39 | the OAuth redirect is the e-mail redirect plus "/auth/callback" |
| Auth.IsAuthCallback | project/src/components/Auth.tsx:15 | the callback acts exactly when the hash contains "access_token" |
| Auth.AuthForm.constructor | project/src/components/Auth.tsx:7-9 | the form starts with an empty e-mail and password and no spinner |
| Auth.AuthForm.HandleSignUp | project/src/components/Auth.tsx:70-107 | nothing is sent when a check fails, and its message is alerted; otherwise the request carries the credentials and the redirect; a service error is alerted; a created user gives the success alert and clears both fields; the spinner ends off |
| Auth.AuthForm.HandleSignIn | project/src/components/Auth.tsx:109-133 | nothing is sent when a check fails, and its message is alerted; a service error is alerted and the store is unchanged; success logs the user in and closes the panel |
| Auth.AuthForm.HandleGoogleSignIn | project/src/components/Auth.tsx:34-68 | the request always goes to Google with the host-chosen redirect, offline access and the consent prompt; an error is alerted; returned data logs the user in and closes the panel |
| Auth.AuthForm.HandleAuthCallback | project/src/components/Auth.tsx:13-28 | the session is asked for exactly when the hash carries an access token; a session found logs the user in and closes the panel; anything else changes nothing |
| Auth.AuthForm.Close | project/src/components/Auth.tsx:142-143 | the close button hides the panel and changes nothing else |

## Left out

- Provider calls: the OpenAI/OpenRouter client and `chat.completions.create` are foreign I/O. The model takes the provider as a function from the request to a `Completion`, with the request's fields and headers recorded in `ProviderRequest`.
- Network and service calls: `fetch`, `response.json()`/`text()` and the Supabase auth calls are I/O. Their outcomes are parameters: `Fetch`, `BodyRead` and `ServiceOutcome`.
- `JSON.parse`, `JSON.stringify` and `new URL` are foreign. They are the parameters `Parser`, `Stringifier` and `isValidUrl`, and JSON key order is not modelled.
- The message of a `TypeError` thrown by the JavaScript engine, for a reply field of the wrong type or `const { topic } = null`, is the engine's wording. It is the placeholder constant `TypeErrorMessage`.
- Randomness: `Math.random` and the redraw loop in `getNextQuestion` are collapsed into a choice of an unused in-range index. Every index such a loop can stop on is allowed. The probability of each index is not modelled.
- `crypto.randomUUID` is an opaque `sessionId` parameter of the store's constructor.
- QuestionBank.FirstCycle: states the five-call cycle over the drawn indices, not over the returned questions. That the five questions are the five distinct bank entries follows from `GetNextQuestion` (the entry at the drawn index), `BankEntriesDistinct` and `CycleHandsOutEachEntryOnce`. Stating it about a loop over questions was too costly for the solver.
- The `sortedAttempts` copy: values are immutable here, so the input is never changed, and that needs no statement.
- Console logging (`console.log` and `console.error`) is not modelled, and neither is `window.history.replaceState` after a successful auth callback.
- Display-only values: the leaderboard percentage (`Math.round`), the date formatting, icons and class names, and the progress bar width.
- Number limits: scores are unbounded integers, not IEEE doubles.
- The disabled states of the card's buttons are not modelled, so every handler can be called in any state: the answer buttons are disabled once an explanation is shown (project/src/components/QuizCard.tsx:111), the rating buttons once a rating is given (QuizCard.tsx:150, 159), the Next button is shown only after an answer (QuizCard.tsx:175) and disabled while loading (QuizCard.tsx:178). `QuizCard.AnswerCountsOnce` therefore describes a click the interface allows only once per question.
- React's asynchronous state updates and stale closures are not modelled.
  - Each handler runs to completion on the state it starts from.
  - `handleNextQuestion` reads `questionCount` before recording the prompt, as the rendered value does.
- `prefetchNextQuestion` is left out: its generating call is commented out, so it only toggles the spinner.
- `handleResponse` does not check that `data` is a `Question`, so the model leaves `data` an untyped JSON value.
- The store's own `Question` type makes `funFact`/`learnMore` required. The model uses the shared type, where they are optional.
- The mock client returned by `createSupabaseClient` when configuration fails stands in for a foreign service.
- The components `TopicChat`, `RandomQuestion`, `ProgressBar`, `ShareQuiz`, `SharedQuizView` and `App`, the module `ai.ts` and `vite.config.ts` are UI or plumbing around the modelled rules, and are not part of this model.
