# coach-nutrition-ai in Dafny

coach-nutrition-ai is a fitness and nutrition coach built on Next.js and AWS Amplify.
Users log meals and workouts, keep a profile, and chat with an AI coach. This project
models the logic behind those features and proves properties of it:

- **Server actions.**
  - `createLog`: validation and the item it stores.
  - `getUserLogs`: ordering.
  - `getUserStats`: aggregation.
  - `updateUserProfile` and `getUserProfile`.
  - The chat actions: `askCoach`, `getChatSessions`, `getChatMessages` and `deleteChatSession`.
- **The two Lambda functions.**
  - The `createEmbedding` stream handler: it embeds every new log and upserts it into the vector index.
  - The `askCoach` resolver: it retrieves context and builds the prompt for the chat model.
- **Client components.**
  - the logs list (parsing, filtering, searching, the delete dialog);
  - the translation hook and the language context;
  - the chat pages, the sidebar and the message composer;
  - the two log forms.

## How the model is organised

- **Value-like data** are datatypes:
  - store items (`Store.Item`), JSON values (`Json.Value`) and form entries (`Forms.Entries`);
  - sessions, messages and the translation trees.
- **Server code** that only computes is written as functions.
- **Server code that calls services** is written as methods on classes:
  - `Backend.DataClient` stands for the Amplify data client. It holds the table, every call made so far and the reply each call gets.
  - `CreateEmbedding.Services` and `AskCoachHandler.CoachAi` stand for OpenAI and Pinecone.

  The methods state the exact sequence of calls, in order. Their loops are proved against specification functions (`Ingest`, `RunOf`, `ListWhere`; `Ingest` folds the records one at a time through `IngestWith`).
- **React components** are classes whose fields are the component's state. Each handler is a method.
  - An `async` handler is split in two at its `await`: a `Start…` method and a `Finish…` method.
  - The values its closure captured are kept in a field (`pending`, `asked`).
- **Inputs from outside** are parameters:
  - results of server actions, as `Result`s;
  - `JSON.parse`, as a function returning `Option`;
  - translations, the clock (`now`, in milliseconds), UUIDs and the random part of ids.

Dafny's `%` is Euclidean. It is applied only to non-negative instants here (day-of-week arithmetic).

## Model

| member | source | states |
|---|---|---|
| LogActions.LogFormError | app/log/actions.ts:34-58 | notes and calories are checked first, then the meal or workout fields, then calories ≥ 0, then a workout's duration ≥ 1; each message is given exactly when its check is the first to fail, and no message iff every check passes |
| LogActions.StructuredData | app/log/actions.ts:63-70 | the stored object is userNotes followed by exactly mealType and foods for a meal, or workoutType, duration and intensity for any other type |
| LogActions.LogItem | app/log/actions.ts:72-81 | the item has PK `USER#<userId>`, SK `LOG#<logId>`, the upper-cased type, the timestamp, the stringified notes and the integer calories |
| LogActions.CreateLog | app/log/actions.ts:10-102 | without a user: sign-up redirect and no write; exactly one write iff every check passes and a logType is present; the write carries the key, type, parsed calories (≥ 0) and notes; a failed check or a thrown create gives the error redirect |
| LogActions.GetUserLogs | app/log/actions.ts:105-130 | [] without a user or when the list throws; otherwise exactly the user's `LOG#` items (as a multiset) sorted newest first |
| LogActions.CreatedLogIsListed | app/log/actions.ts:72-81 | a log written by createLog is among the logs getUserLogs returns afterwards |
| LogActions.DayOfWeek | app/log/actions.ts:176 | `getDay()` of an instant lies in 0..6 |
| LogActions.StartOfWeekAsWritten | app/log/actions.ts:175-176 | the week start the code computes: the most recent Sunday at the current time of day, at most now and less than a week before it |
| LogActions.StartOfWeek | app/log/actions.ts:175-176 | the corrected week start of the Findings row, not what the code computes: midnight of the most recent Sunday, at most now and less than a week before it |
| LogActions.StartOfWeekCoversWeek | app/log/actions.ts:175-180 | every instant from the start of the week up to now lies in the same week |
| LogActions.UserStats | app/log/actions.ts:166-198 | for a given week start: totals are the meal and workout counts and calorie sums of all logs (missing calories as 0), the balance is consumed − burned, and thisWeek is the same figures over the logs from the week start on |
| LogActions.GetUserStats | app/log/actions.ts:164-199 | zero figures without a user or when the listing throws; otherwise the totals are the figures of exactly the user's `LOG#` items, whatever their order, and thisWeek counts the logs from the week start as written |
| LogActions.WeekWithinTotal | app/log/actions.ts:175-198 | for any week start, this week's counts never exceed the totals, and neither do its calorie sums when no calories are negative |
| LogActions.AddingMealLog | app/log/actions.ts:167-171 | one more meal log adds one meal and its calories to the totals and leaves the workouts alone |
| LogActions.SundayMorningLogMissed | app/log/actions.ts:176 | with the time of day kept, a Sunday-morning log is outside the week at Sunday noon, though it is inside the week that starts at midnight |
| LogActions.WrittenWeekWithinIntended | app/log/actions.ts:175-183 | the week as written never holds more meals or workouts than the week that starts at midnight |
| ProfileActions.GetUserProfile | app/profile/actions.ts:11-37 | null without a user, without a profile item or when the read throws; otherwise the `USER#<id>`/`PROFILE` item |
| ProfileActions.ProfileFormError | app/profile/actions.ts:61-88 | name, then age/height/weight present, then age in [10,120], height in [100,250], weight in [30,300], then fitness goals; each message is given exactly when its check is the first to fail, and no message iff every check passes |
| ProfileActions.OrDefault | app/profile/actions.ts:106-107 | the field when non-empty, else the fallback |
| ProfileActions.ProfileItem | app/profile/actions.ts:93-110 | PK `USER#<id>`, SK `PROFILE`, type PROFILE, the email or "", the parsed numbers, the goals, and as notes the stringified object of ProfileNotes |
| ProfileActions.ProfileNotesReadBack | app/profile/actions.ts:104-109 | parsed back, the notes give the trimmed name, the activity level or "moderate", the gender or "not_specified", and the update time |
| ProfileActions.UpdateUserProfile | app/profile/actions.ts:40-131 | sign-up redirect without a user; a failed check gives its error and no write; otherwise exactly one write, an update when a profile exists and a create otherwise |
| ProfileActions.SavedProfileReadsBack | app/profile/actions.ts:91-120 | after a successful save, getUserProfile returns the saved age, height, weight, goals and notes |
| ChatActions.SessionTitle | app/chat/actions.ts:47 | the prompt itself up to 50 characters; otherwise its first 50 characters followed by "..." |
| ChatActions.RunStep | app/chat/actions.ts:41-88 | a call that does not give up extends the run of planned writes; a failing call or the last call ends it |
| ChatActions.WriteStep | app/chat/actions.ts:41-61 | one planned create is sent and recorded, and the run goes on or ends as its reply says |
| ChatActions.MutationStep | app/chat/actions.ts:66-76 | the mutation is called once; an answer continues the run, and errors or a throw end it |
| ChatActions.AskCoach | app/chat/actions.ts:16-103 | no calls and an error without a user; no calls and the fixed reply for a blank prompt; otherwise the calls made are a run of the plan (session record only for a `new-` id, then user message, mutation, assistant message); a reply carries the answer or the fallback, and newSessionId iff the id was new; every failure gives the same message |
| ChatActions.Converse | app/chat/actions.ts:37-93 | the calls made are a run of the plan up to the first failure; on success the reply is the answer (or the fallback) with the saved id exactly when the session was new; every failure gives the same message |
| ChatActions.GetChatSessions | app/chat/actions.ts:106-135 | an error without a user or when listing fails; otherwise the views of exactly the user's `CHAT_SESSION#` items, newest first |
| ChatActions.GetChatMessages | app/chat/actions.ts:138-168 | an error without a user or when listing fails; otherwise the views of exactly the session's `CHAT_MESSAGE#<id>#` items, oldest first |
| ChatActions.ListedView | app/chat/actions.ts:118-129 | every stored item that passes the listing filter appears in the result, as the view makes it |
| ChatActions.MessageViewOf | app/chat/actions.ts:52-61 | a stored message is seen back with its key, role, content and time |
| ChatActions.EarlierFirst | app/chat/actions.ts:162 | in the oldest-first list an earlier message stands before a later one |
| ChatActions.CreatedSessionIsListed | app/chat/actions.ts:37-49 | the session record askCoach stores for a `new-` id is listed by getChatSessions, under the id without its prefix and with the truncated title |
| ChatActions.ExchangeIsListed | app/chat/actions.ts:52-88 | a question and its later answer are both listed by getChatMessages, the question first |
| ChatActions.KeysDisjoint | app/chat/actions.ts:121 | message keys never match the session prefix, and session keys never match a message prefix |
| ChatActions.SessionsIsolated | app/chat/actions.ts:153 | with ids free of '#', one session's messages never match another session's prefix |
| ChatActions.DeleteOne | app/chat/actions.ts:194-197 | deleting one message only removes items of that session, and a successful delete removes that key |
| ChatActions.NoneLeft | app/chat/actions.ts:184-199 | once every listed item is gone and nothing was added, the listing is empty |
| ChatActions.DeleteStep | app/chat/actions.ts:194-197 | one delete call is sent and recorded; only the session's items can go; a successful delete removes the key |
| ChatActions.DeleteMessages | app/chat/actions.ts:192-199 | the loop deletes the listed messages in order, stops at the first failure, removes only items of the session, and leaves none of the listed keys when every delete succeeds |
| ChatActions.DeleteSessionRecord | app/chat/actions.ts:201-214 | the session record is looked up and deleted when present; only the session's items can go |
| ChatActions.DeleteChatSession | app/chat/actions.ts:171-221 | an error and no calls without a user; true iff the last call did not fail; only the session's items are removed; when every call succeeds, no message of the session and no session record is left |
| CreateEmbedding.LogKeySegments | amplify/functions/createEmbedding/handler.ts:39 | the second '#'-segment of `LOG#<rest>` is the first segment of rest |
| CreateEmbedding.RecordCalls | amplify/functions/createEmbedding/handler.ts:18-58 | a record makes calls iff it is an INSERT of a `USER#`/`LOG#` item with notes; the first call embeds exactly the notes; the upsert follows iff the embed succeeded and the item has a type, and it sends VectorOf the item and the embedding into the userId namespace |
| CreateEmbedding.HandleRecord | amplify/functions/createEmbedding/handler.ts:18-59 | the calls of one record are appended to the service log |
| CreateEmbedding.Handler | amplify/functions/createEmbedding/handler.ts:13-62 | the loop makes exactly the calls of every record in order; a failed record does not stop the later ones |
| CreateEmbedding.PickedAppend | amplify/functions/createEmbedding/handler.ts:16 | the calls of one kind in two runs of calls are those of the first run, then those of the second |
| CreateEmbedding.RecordPicks | amplify/functions/createEmbedding/handler.ts:18-53 | one record embeds its notes once iff it qualifies, and upserts at most once |
| CreateEmbedding.IngestLast | amplify/functions/createEmbedding/handler.ts:16-61 | handling a list is handling all but the last record, then the last |
| CreateEmbedding.EveryLogEmbedded | amplify/functions/createEmbedding/handler.ts:16-35 | the embedding calls are exactly the notes of the qualifying records, in record order |
| CreateEmbedding.AtMostOneUpsertEach | amplify/functions/createEmbedding/handler.ts:42-53 | there are never more upserts than qualifying records |
| CreateEmbedding.VectorIdOfLog | amplify/functions/createEmbedding/handler.ts:39 | the vector id of `LOG#<id>` is id when id has no '#' |
| CreateEmbedding.CreatedLogVector | amplify/functions/createEmbedding/handler.ts:18-51 | when neither call throws, a log written by createLog is embedded from its stringified notes and upserted into its owner's namespace under its log id, with the lower-case type, its time, its calories and its notes as metadata |
| AskCoachHandler.UserIdIsFirstPresent | amplify/functions/askCoach/handler.ts:30-41 | userId is sub, else username, else issuer: the first that is a string |
| AskCoachHandler.EmptySubIsRefused | amplify/functions/askCoach/handler.ts:34-45 | an empty-string sub is taken, so no later field stands in, and the request is refused |
| AskCoachHandler.CoachAi.EmbedPrompt | amplify/functions/askCoach/handler.ts:49-54 | one embedding call with the model, the prompt and 512 dimensions, recorded; the vector or the error |
| AskCoachHandler.CoachAi.Query | amplify/functions/askCoach/handler.ts:57-61 | one query of the namespace with topK and metadata, recorded; the topK best matches or the error |
| AskCoachHandler.CoachAi.Complete | amplify/functions/askCoach/handler.ts:119-123 | one completion call with the model, the prompt and the token limit, recorded |
| AskCoachHandler.ContextEmptyIffNoNotes | amplify/functions/askCoach/handler.ts:62-65 | the retrieved context is empty exactly when no match carries notes |
| AskCoachHandler.ContextListsEveryNote | amplify/functions/askCoach/handler.ts:62-65 | every note a match carries appears in the context |
| AskCoachHandler.StrayBraceInProfile | amplify/functions/askCoach/handler.ts:76 | as written, every profile sentence ends in ".}" |
| AskCoachHandler.ProfileContextStates | amplify/functions/askCoach/handler.ts:75-77 | the corrected sentence: the fixed sentence without a profile; with one, the goals, then the weight in kg and the age, and the sentence ends in " años." |
| AskCoachHandler.BraceIsTheOnlyDifference | amplify/functions/askCoach/handler.ts:75-77 | the sentence as written is the corrected one followed by "}", and the two agree without a profile |
| AskCoachHandler.ServiceHistory | amplify/functions/askCoach/handler.ts:82-89 | at most 10 of the session's messages, ascending by time, all of them when there are 10 or fewer |
| AskCoachHandler.HistoryShape | amplify/functions/askCoach/handler.ts:91-93 | the history is empty iff there are no messages; there are at most ten lines, and each message's `role: content` line is in the text |
| AskCoachHandler.PromptParts | amplify/functions/askCoach/handler.ts:97-116 | the prompt holds the profile sentence, the retrieved logs (or the fixed sentence when there are none), the history (or the fixed sentence when there is none), and the question in quotes after its label |
| AskCoachHandler.Rethrown | amplify/functions/askCoach/handler.ts:129-133 | a downstream failure's message is re-thrown after the fixed prefix, never as the unauthenticated message |
| AskCoachHandler.RetrieveLogs | amplify/functions/askCoach/handler.ts:49-65 | the embed call, then (if it succeeded) the query of the userId namespace with topK 5; the context of the matches or the error |
| AskCoachHandler.ReadProfile | amplify/functions/askCoach/handler.ts:68-77 | one get of `USER#<id>`/`PROFILE`; the profile sentence as written (with its brace), the fixed sentence when no profile comes back, or the error |
| AskCoachHandler.ReadHistory | amplify/functions/askCoach/handler.ts:80-94 | no call and an empty history without a session id; otherwise one list of the session's messages and the history it gives |
| AskCoachHandler.Answer | amplify/functions/askCoach/handler.ts:47-127 | the result is AnswerOutcome: the message of the first call that throws (embed, query, profile read, history read, completion) or the completion of the prompt with the as-written profile sentence, the top five notes and the history; on success the embed, query and completion calls in that order, the profile read, then the history read iff a session id is given |
| AskCoachHandler.Handler | amplify/functions/askCoach/handler.ts:27-134 | refused with no call iff no user id is found; otherwise the embedding of the prompt is the first call, and the result is AnswerOutcome's answer, or its error message behind the prefix |
| LogsView.ParseLogs | app/components/logs/LogsView.tsx:65-79 | one parsed entry per log, in order, with the parsed notes; a log without notes gets null; the older copy at app/logs/components/LogsView.tsx:139-153 does the same |
| LogsView.NotesFallBackToUserNotes | app/components/logs/LogsView.tsx:65-91 | notes that do not parse become an object whose userNotes is the text; parsed notes are kept; missing notes give null, on which any non-empty search throws; the older copy at app/logs/components/LogsView.tsx:139-165 does the same |
| LogsView.TabsSelectByType | app/components/logs/LogsView.tsx:83-85 | tab 0 keeps all logs, tab 1 only MEAL, tab 2 only WORKOUT; the older copy at app/logs/components/LogsView.tsx:157-159 does the same |
| LogsView.AnyFieldIncludesMeaning | app/components/logs/LogsView.tsx:87-91 | with no numeric field, the search over the fields finds exactly a field that includes the term |
| LogsView.SearchMeaning | app/components/logs/LogsView.tsx:87-91 | an empty term matches everything; otherwise a log matches iff its lower-cased userNotes, foods, workoutType or mealType includes the lower-cased term; a throw needs a non-empty term and unsearchable data; the older copy at app/logs/components/LogsView.tsx:161-165 does the same |
| LogsView.AnyFieldThrowsOnlyOnNumbers | app/components/logs/LogsView.tsx:88-90 | the search throws only when a searched field is a number |
| LogsView.SearchIgnoresCase | app/components/logs/LogsView.tsx:87-91 | the term's case does not change the result |
| LogsView.FilteredLogsMeaning | app/components/logs/LogsView.tsx:82-94 | the filter throws iff some log's search throws; otherwise it is exactly the logs that pass tab and search |
| LogsView.FilteredKeepsOrder | app/components/logs/LogsView.tsx:82-94 | the filtered list is an order-keeping subsequence holding every kept log and only those; the older copy at app/logs/components/LogsView.tsx:156-168 does the same |
| LogsView.AllTabShowsEverything | app/components/logs/LogsView.tsx:82-94 | the first tab with an empty search shows every log |
| LogsView.Shown | app/components/logs/LogsView.tsx:143-150 | an empty list shows the empty state with the search term; otherwise the list |
| LogsView.DialogLogIdStripsPrefix | app/components/logs/LogsView.tsx:96-99 | an SK starting with `LOG#` loses that prefix; an SK without it is kept; the older copy at app/logs/components/LogsView.tsx:170-173 does the same |
| LogsView.DeleteNotice | app/components/logs/LogsView.tsx:101-112 | the notice opens, a success exactly when the delete succeeded, with the matching message |
| LogsView.LogsPage.SelectTab | app/components/logs/LogsView.tsx:156 | only the tab changes |
| LogsView.LogsPage.Search | app/components/logs/LogsView.tsx:164 | only the search term changes |
| LogsView.LogsPage.HandleDeleteClick | app/components/logs/LogsView.tsx:96-99 | the dialog opens with the id without its prefix and the type; nothing else changes |
| LogsView.LogsPage.HandleDeleteConfirm | app/components/logs/LogsView.tsx:101-112 | the form sent holds the dialog's log id; the notice reports the outcome; the page refreshes only on success; the dialog is closed and reset either way; the older copy at app/logs/components/LogsView.tsx:175-186 does the same |
| LogsView.BalanceLabel | app/logs/components/LogsView.tsx:375 | a positive balance gets a leading '+', any other is written as is |
| LogsView.BalanceLabelReadsBack | app/logs/components/LogsView.tsx:375 | the label starts with '+' iff the balance is positive, and it reads back as the balance |
| Translation.Member | app/hooks/useTranslation.ts:24 | a member found has that key; none iff no member has it |
| Translation.WalkAppend | app/hooks/useTranslation.ts:23-25 | walking a path walks its first part, then the rest from there |
| Translation.WalkFromNull | app/hooks/useTranslation.ts:24 | once null, the walk stays null |
| Translation.MissingSegmentYieldsNull | app/hooks/useTranslation.ts:22-26 | a missing segment makes the whole lookup null |
| Translation.DottedKeyFollowsPath | app/hooks/useTranslation.ts:23 | a dotted key is looked up along its segments |
| Translation.Placeholder | app/hooks/useTranslation.ts:52 | `{{name}}` is four characters longer than the name |
| Translation.InterpolateWithoutPlaceholders | app/hooks/useTranslation.ts:50-55 | a text with none of the placeholders comes out unchanged |
| Translation.SubstitutesPlaceholder | app/hooks/useTranslation.ts:50-55 | a placeholder is replaced by the parameter's value |
| Translation.KeyWhenLoadingOrMissing | app/hooks/useTranslation.ts:40-47 | the key itself while loading and when no non-empty text is found |
| Translation.TranslatesPath | app/hooks/useTranslation.ts:42-57 | a key naming a text gives the text unchanged without params, and the interpolated text with them |
| Translation.AvailableLanguages | app/hooks/useTranslation.ts:74-77 | two languages, 'es' then 'en' |
| Translation.EveryLanguageOfferedOnce | app/hooks/useTranslation.ts:74-77 | every language is offered exactly once |
| LanguageContext.Code | app/contexts/LanguageContext.tsx:26 | a language's code reads back as that language |
| LanguageContext.FromCode | app/contexts/LanguageContext.tsx:26 | exactly 'en' and 'es' are languages |
| LanguageContext.InitialLanguage | app/contexts/LanguageContext.tsx:24-36 | a saved 'en' or 'es' is adopted; otherwise 'en' iff the lower-cased browser language starts with "en" |
| LanguageContext.ChoiceSurvivesReload | app/contexts/LanguageContext.tsx:23-43 | a language set by setLanguage is the one chosen at the next start |
| LanguageContext.LanguageProvider.constructor | app/contexts/LanguageContext.tsx:20-21 | Spanish, loading |
| LanguageContext.LanguageProvider.Initialize | app/contexts/LanguageContext.tsx:23-38 | the language is the initial choice from storage and browser, and loading ends |
| LanguageContext.LanguageProvider.SetLanguage | app/contexts/LanguageContext.tsx:40-43 | the language is set and stored under 'app-language' |
| LanguageContext.UseLanguage | app/contexts/LanguageContext.tsx:52-57 | the context inside a provider, the error outside one |
| ChatSidebar.Rank | app/components/chat/ChatSidebar.tsx:101-107 | each group has its place in the listing order |
| ChatSidebar.NewerNeverInLaterGroup | app/components/chat/ChatSidebar.tsx:108-125 | a newer session never sits in a later group than an older one |
| ChatSidebar.BucketBounds | app/components/chat/ChatSidebar.tsx:108-125 | the age bounds of the groups: under 1 day, 1–2, 2–7, 7–30, 30 days and more |
| ChatSidebar.GroupSessionsByDate | app/components/chat/ChatSidebar.tsx:99-128 | each group is exactly the sessions of that age, in input order |
| ChatSidebar.InExactlyOneGroup | app/components/chat/ChatSidebar.tsx:108-125 | a session is in a group iff that group is its age's |
| ChatSidebar.GroupsPartitionSessions | app/components/chat/ChatSidebar.tsx:99-128 | the group sizes add up to the number of sessions |
| ChatSidebar.ListingShowsEverySession | app/components/chat/ChatSidebar.tsx:174-192 | no empty group is shown, and every session is shown under its group's label |
| ChatSidebar.AyerMeansYesterdayGroup | app/components/chat/ChatSidebar.tsx:79-97 | "Ayer" exactly between one and two days, which is exactly the "Ayer" group; the time of day exactly for today's group |
| ChatSidebar.SessionMenu.HandleMenuOpen | app/components/chat/ChatSidebar.tsx:61-65 | the anchor and the selected session are set |
| ChatSidebar.SessionMenu.HandleMenuClose | app/components/chat/ChatSidebar.tsx:67-70 | the anchor and the selection are cleared |
| ChatSidebar.SessionMenu.HandleDeleteSession | app/components/chat/ChatSidebar.tsx:72-77 | the selected id is passed on only when it and the callback exist; the menu closes either way |
| ChatMessages.ButtonFollowsGuard | app/components/chat/ChatMessages.tsx:64-70 | the send button is disabled exactly when a submit would do nothing; the button at line 342 is disabled by the same guard |
| ChatMessages.Composer.HandleSubmit | app/components/chat/ChatMessages.tsx:64-70 | when the guard passes, the trimmed input is sent and the input cleared; otherwise nothing changes |
| ChatMessages.Composer.HandleKeyPress | app/components/chat/ChatMessages.tsx:72-77 | Enter without Shift submits; any other key changes nothing |
| ChatInterface.ReplyTurn | app/components/chat/ChatInterface.tsx:38-52 | an assistant turn with the answer, or the apology after a failure |
| ChatInterface.NextSessionId | app/components/chat/ChatInterface.tsx:40-45 | the new session id when the reply carries one, else the id in use |
| ChatInterface.NewSessionIdIsSaved | app/components/chat/ChatInterface.tsx:19-25 | the page's `new-` id is the one askCoach turns into the saved id |
| ChatInterface.ChatPage.InitSession | app/components/chat/ChatInterface.tsx:19-25 | a missing session id becomes `new-` + uuid; an existing one is kept |
| ChatInterface.ChatPage.StartSend | app/components/chat/ChatInterface.tsx:27-36 | nothing happens unless the guard passes; otherwise the untrimmed question is appended, the input cleared, loading set, and askCoach called with the question and session id |
| ChatInterface.ChatPage.FinishSend | app/components/chat/ChatInterface.tsx:37-53 | exactly one assistant turn is appended, a new session id is adopted, and loading ends |
| MultiChat.Preview | app/components/chat/MultiChatInterface.tsx:134 | the answer up to 100 characters; otherwise its first 100 followed by "..." |
| MultiChat.NewSessionEntry | app/components/chat/MultiChatInterface.tsx:130-135 | the new session has the saved id, the truncated title, the time and the preview |
| MultiChat.WithoutSession | app/components/chat/MultiChatInterface.tsx:161 | exactly the sessions with other ids, in order |
| MultiChat.ReplyMessage | app/components/chat/MultiChatInterface.tsx:119-148 | an assistant message with the answer, or the generic error text |
| MultiChat.ComposerSendPassesPageGuard | app/components/chat/MultiChatInterface.tsx:103 | a text the composer sends always passes the page's own guard |
| MultiChat.ChatPage.HandleNewChat | app/components/chat/MultiChatInterface.tsx:92-96 | the active id becomes `new-` + uuid and the messages are emptied |
| MultiChat.ChatPage.HandleSessionSelect | app/components/chat/MultiChatInterface.tsx:98-100 | only the active id changes |
| MultiChat.ChatPage.LoadMessages | app/components/chat/MultiChatInterface.tsx:75-90 | nothing is fetched for a `new-` id and the messages are emptied; otherwise the fetched messages, or an error and no messages |
| MultiChat.ChatPage.ActiveSessionChanged | app/components/chat/MultiChatInterface.tsx:43-49 | no active id empties the messages; otherwise the messages are loaded |
| MultiChat.ChatPage.LoadSessions | app/components/chat/MultiChatInterface.tsx:51-73 | the sessions are the loaded ones; the first is selected when none is active; an empty list or a failure starts a new chat; loading ends |
| MultiChat.ChatPage.StartSend | app/components/chat/MultiChatInterface.tsx:102-117 | nothing happens without an active id or while loading; otherwise the user message is appended, loading set, the error cleared, and askCoach called |
| MultiChat.ChatPage.FinishSend | app/components/chat/MultiChatInterface.tsx:118-153 | exactly one assistant message is appended; a new session is prepended and made active when a `new-` send got a newSessionId; loading ends; a failure sets the error |
| MultiChat.ChatPage.HandleDeleteSession | app/components/chat/MultiChatInterface.tsx:156-171 | after a delete only the other sessions remain, and an active deleted session is cleared with its messages; a failure only sets the error |
| LogView.WithText | app/components/log-form/LogView.tsx:44-56 | the named field gets the value and every other field keeps its own |
| LogView.InitialFormIsBlank | app/components/log-form/LogView.tsx:29-39 | all fields empty except intensity 'moderate' and duration 30, and the form is not yet valid |
| LogView.ValidityNeedsEachField | app/components/log-form/LogView.tsx:80-84 | clearing any field the log type needs makes the form invalid |
| LogView.Extras | app/components/log-form/LogView.tsx:69-73 | five entries with the names mealType, foods, workoutType, duration and intensity |
| LogView.ExtrasCarryState | app/components/log-form/LogView.tsx:69-73 | the appended entries carry the form's meal type, foods, workout type, duration text and intensity |
| LogView.ExtrasAddNothingElse | app/components/log-form/LogView.tsx:69-73 | no other name is appended |
| LogView.SentFormCarriesState | app/components/log-form/LogView.tsx:65-75 | createLog reads back the page's log type and every field of the form's state |
| LogView.MealCheckMatchesServer | app/components/log-form/LogView.tsx:80-84 | a meal form is valid exactly when createLog finds its basic and meal fields |
| LogView.WorkoutCheckMatchesServer | app/components/log-form/LogView.tsx:80-84 | a workout form with an intensity is valid exactly when createLog finds its basic and workout fields |
| LogView.SliderDurationIsValid | app/components/log-form/LogView.tsx:72 | a positive duration passes createLog's duration check |
| LogView.ValidFormIsAccepted | app/components/log-form/LogView.tsx:65-84 | a valid form with calories ≥ 0 (and, for a workout, an intensity and a positive duration) passes every check of createLog |
| LogView.LogPage.constructor | app/components/log-form/LogView.tsx:28-39 | the initial state, not submitting; the older copy at app/log/components/LogForm.tsx:86-97 does the same |
| LogView.LogPage.SetText | app/components/log-form/LogView.tsx:44-56 | only the named text field changes; the older copy at app/log/components/LogForm.tsx:105-117 does the same |
| LogView.LogPage.SetDuration | app/components/log-form/LogView.tsx:58-63 | only the duration changes; the older copy at app/log/components/LogForm.tsx:119-124 does the same |
| LogView.LogPage.StartSubmit | app/components/log-form/LogView.tsx:65-75 | submitting starts and the five extra fields are appended in order; the older copy at app/log/components/LogForm.tsx:126-136 does the same |
| LogView.LogPage.FinishSubmit | app/components/log-form/LogView.tsx:76 | submitting ends |
| LogForm.SubmitDisabledIffInvalid | app/log/components/LogForm.tsx:470-476 | the button is disabled exactly while submitting or when the form is not valid |
| LogForm.Find | app/log/components/LogForm.tsx:145-146 | the first element satisfying the test, or none iff none does |
| LogForm.IntensityValuesDistinct | app/log/components/LogForm.tsx:77-81 | the three intensity levels have distinct values |
| LogForm.SelectedIntensityMeaning | app/log/components/LogForm.tsx:145 | the level whose value is the form's intensity, none iff no level has it; a fresh form shows Moderada |
| LogForm.SelectedWorkoutTypeMeaning | app/log/components/LogForm.tsx:146 | the workout type whose value is the form's, none iff no type has it, and none on a fresh form |
| LogForm.MenuChoiceFillsTypeField | app/log/components/LogForm.tsx:57-74 | any menu entry fills the type field, so with notes, calories and foods the button is enabled |

## Left out

- Rendering, styling, icons, skeletons and the header, card, selector and input components: they have no behaviour to state.
- BMI computation: it is floating-point arithmetic.
- `deleteLog` in app/log/actions.ts and `deleteLogAction` in app/logs/actions.ts are not part of this model. The logs page gets the action's outcome as a parameter.
- Redirects are outcome values. Next.js's `NEXT_REDIRECT` exception and the query string's percent-encoding are not modelled.
- Authentication (`GetAuthCurrentUserServer`) is an `Option<User>` parameter.
- The OpenAI, Pinecone and Amplify clients are classes that record calls and answer from given functions. They are not real behaviour, and concurrency between requests is not modelled.
- `JSON.parse` is an opaque parameter. `JSON.stringify` is modelled for flat objects of strings, integers and null only.
- Timestamps are integer milliseconds in local time. Time zones, ISO formatting and the locale formatting of dates are left out, and `FormatDate` returns its time-of-day and day-and-month labels unformatted.
- One `now` value stands for every `Date.now()` of a request. The user and assistant messages of `askCoach` get `now` and `later`.
- Strings are sequences of code points, not of UTF-16 units. `toLowerCase` and `toUpperCase` map only ASCII and Latin-1 letters.
- `parseInt` is modelled for decimal and `0x` hexadecimal digit runs. JavaScript number precision is not modelled: numbers are unbounded integers.
- The store listing is a scan in table order. Pagination, the `limit` of a scan and DynamoDB's own ordering are not modelled.
- AskCoachHandler.ServiceHistory: the list with `limit: 10` and `sortDirection: 'ASC'` is taken as the first ten messages in time order. DynamoDB applies the limit before the filter, and that is not modelled.
- Translation.Interpolate: parameter names are taken as literal text. Regular-expression metacharacters in names, and `$` patterns in values, are not modelled. Parameters are taken in the order given, which stands for `Object.keys` order.
- Translation.Step: a member lookup on a non-empty string (an index or `length`) is taken as missing, where JavaScript would give a character or a number.
- MultiChat.ChatPage: React effects run when the model calls them (`ActiveSessionChanged`), and state updates take effect immediately. Batching and the scheduling of concurrent sends are not modelled.
- `uuidv4()`, the browser language and `localStorage` are parameters or fields.
- Sign-up redirects and `router.refresh()` are not modelled; a refresh is counted (`refreshes`).
- ChatActions.GetChatMessages: a missing `messageRole` is kept as `None`. The TypeScript cast to `'user' | 'assistant'` checks nothing.
- LogView.LogPage.StartSubmit: `createLog` is not run from the page. `LogView.ValidFormIsAccepted` connects the two, and `FinishSubmit` stands for returning from it.
- LogView.CarriesState: the browser's collection of named controls is a precondition on the entries. The notes input component is not part of this model, so a notes control of that name is assumed.

## Findings

The operations follow the code as written: `GetUserStats` uses `StartOfWeekAsWritten`, and `ReadProfile`, `Answer` and `Handler` send `ProfileContextAsWritten`. The corrected definitions (`StartOfWeek`, `ProfileContext`) stand beside them, with the intended property proved, and `WrittenWeekWithinIntended` and `BraceIsTheOnlyDifference` relate each pair.

| source | as written | input that shows it | evidently intended | confidence | as-written member | corrected member |
|---|---|---|---|---|---|---|
| app/log/actions.ts:176 | `setDate(getDate() - getDay())` moves to Sunday but keeps the current time of day, so the week starts at this hour on Sunday | at 12:00 on a Sunday, a log written at 09:00 that morning is left out of the weekly figures | the week starts at midnight on Sunday | not executed | LogActions.SundayMorningLogMissed | LogActions.StartOfWeekCoversWeek |
| amplify/functions/askCoach/handler.ts:76 | the profile sentence ends with `años.}`, with a stray closing brace | any stored profile | the sentence ends with `años.` | not executed | AskCoachHandler.StrayBraceInProfile | AskCoachHandler.ProfileContextStates |
