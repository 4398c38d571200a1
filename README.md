# career-ai mock interview core, modelled in Dafny

This project models the mock-interview core of the career-ai web application:

- the `MockInterview` Mongoose collection. It has a schema with enumerations, required paths and defaults. A save validates and casts the document. The model also has the document a route mutates and the store that `findOne`, `find` and `save` act on.
- the collection routes of `/api/mock-interview`:
  - `GET` lists the caller's interviews, newest first;
  - `POST` creates an interview;
  - `PATCH` appends a message and assigns the other given fields.
- the conversation route `POST /api/mock-interview/conversation`. It runs one interview turn:
  - save the candidate's turn;
  - ask the model with the whole history;
  - validate the reply, or fall back to a plain statement;
  - synthesise speech;
  - save the interviewer's turn, possibly marking the interview completed.
- `GenerateAiDataGroq`, which assembles and sends the chat messages and parses the reply.
- `parseAiJsonResponse` and `getInitials` from the shared utilities.
- the interviewer prompt builders. `buildSystemPrompt` picks one animation per group, shuffles them, and embeds the role, difficulty, skills and notes. `buildFormattingPrompt` is modelled too.
- the `useSpeechRecognition` React hook, as a state machine over the hook's state and refs.
- the job-search `SearchFilter` panel: its filter state, the query it hands to `onFilter`, and its active-filter badges.

Everything outside the program is a parameter, so the model stays deterministic:

- the language model;
- `JSON.parse`;
- the text-to-speech service;
- the token check;
- the clock;
- `Math.random`: the picks, and the comparator outcomes of the shuffle;
- the browser's permission prompt.

JavaScript values are the `JsValues.Value` datatype. A Mongoose document is the field map a route assigns. `MockInterview.Decode` is the schema's validation and cast on save, and `MockInterview.Encode` is its inverse.

Modules, one per file:

- `JsValues`: JS values, `trim`, case mapping, the String cast;
- `MockInterview`: the schema, document and store;
- `Http`: responses;
- `InterviewRoutes`: GET, POST and PATCH;
- `ConversationRoute`: one interview turn;
- `InterviewerPrompt`: the prompt builders;
- `Groq`: message assembly and the model call;
- `Utils`: `parseAiJsonResponse` and `getInitials`;
- `SpeechRecognition`: the speech hook;
- `SearchFilter`: the filter panel.

## Model

| member | source | states |
|---|---|---|
| MockInterview.ParseDifficulty | src/models/MockInterview.js:21-25 | a difficulty is accepted exactly when it is one of the three enumerated names, and parsing returns the enumerator with that name |
| MockInterview.ParseStatus | src/models/MockInterview.js:26-30 | a status is accepted exactly when it is pending, completed or canceled |
| MockInterview.ParseRole | src/models/MockInterview.js:35 | a conversation role is accepted exactly when it is user or assistant |
| MockInterview.DecodeTurn | src/models/MockInterview.js:34-38 | a turn that validates has a non-empty content, because content is required |
| MockInterview.DecodeTurns | src/models/MockInterview.js:34-38 | a conversation validates iff every turn validates; the result is the turns decoded one by one, same length |
| MockInterview.DecodeStrings | src/models/MockInterview.js:17-20 | the skills array casts iff every element casts to a string; the result is the elements cast one by one, same length |
| MockInterview.DecodePaths | src/models/MockInterview.js:3-43 | validation succeeds with a well-formed record that the paths describe, and with the only such record |
| MockInterview.Decode | src/models/MockInterview.js:3-43 | a document that validates yields a well-formed record |
| MockInterview.WithDefault | src/models/MockInterview.js:26-30 | a default fills a path only when it is undefined, and no other path changes |
| MockInterview.ApplyDefaults | src/models/MockInterview.js:17-42 | the defaults of skills, status, conversation and createdAt apply only where undefined; every other path is untouched |
| MockInterview.DecodeEncodeStrings | src/models/MockInterview.js:17-20 | casting the encoded skills gives back the same skills |
| MockInterview.DecodeEncodeTurns | src/models/MockInterview.js:34-38 | decoding the encoded conversation gives back the same turns |
| MockInterview.DecodeEncode | src/models/MockInterview.js:3-43 | a well-formed record survives a save and a reload unchanged |
| MockInterview.EncodeKeys | src/models/MockInterview.js:3-43 | a stored record's document holds the nine always-set schema paths, and `notes` exactly when the record has notes |
| MockInterview.DecodeTurnsSnoc | src/models/MockInterview.js:34-38 | appending a turn validates iff the old conversation and the new turn both validate; the result is the old turns plus the new one |
| MockInterview.DecodeWithConversation | src/models/MockInterview.js:34-38 | assigning a new conversation to a saved document changes only the conversation, and fails exactly when a turn fails |
| MockInterview.DecodeWithStatus | src/models/MockInterview.js:26-30 | assigning a status changes only the status, and fails exactly when it is not an enumerated status |
| MockInterview.WithTurn | src/app/api/mock-interview/conversation/route.js:77-81 | pushing a turn makes the conversation the old entries plus `{ role, content }`; no other path changes and no path is added |
| MockInterview.DecodePushedTurn | src/models/MockInterview.js:34-38 | a pushed turn validates exactly when its content is a non-empty string |
| MockInterview.SaveWithTurn | src/app/api/mock-interview/conversation/route.js:77-83 | saving after a push appends exactly that turn, or fails with a validation error when the content is missing or empty |
| MockInterview.SaveWithTurnCompleted | src/app/api/mock-interview/conversation/route.js:168-179 | a push plus `status = 'completed'` saves as the appended turn with status completed |
| MockInterview.DecodeWithConversationCompleted | src/app/api/mock-interview/conversation/route.js:168-179 | a new conversation plus the completed status saves as exactly those two changes |
| MockInterview.SaveResult | src/models/MockInterview.js:3-43 | a save succeeds with a well-formed record whose id is the document's, or fails when validation fails |
| MockInterview.Lookup | src/app/api/mock-interview/route.js:85-88 | `findOne({_id, userId})` finds a record iff the id names a stored record owned by the caller |
| MockInterview.InsertNewest | src/app/api/mock-interview/route.js:20 | the insertion step of the sort keeps every record and adds exactly one |
| MockInterview.InsertNewestKeepsOrder | src/app/api/mock-interview/route.js:20 | inserting into a newest-first list of distinct ids keeps it newest first with distinct ids |
| MockInterview.InterviewDoc.Load | src/app/api/mock-interview/route.js:85-88 | a loaded document holds the stored record's encoding |
| MockInterview.InterviewDoc.New | src/app/api/mock-interview/route.js:40-47 | `new MockInterview(...)` holds exactly the given fields |
| MockInterview.InterviewDoc.PushTurn | src/app/api/mock-interview/conversation/route.js:77-81 | the document's fields become those with the turn pushed |
| MockInterview.InterviewDoc.Set | src/app/api/mock-interview/route.js:114-116 | assigning a key changes that field only |
| MockInterview.InterviewStore.constructor | src/models/MockInterview.js:45 | the collection starts empty and consistent |
| MockInterview.InterviewStore.FindOwned | src/app/api/mock-interview/route.js:85-88 | the lookup by id and owner |
| MockInterview.InterviewStore.Save | src/app/api/mock-interview/route.js:118 | a successful save stores the decoded record under its id and normalises the document; a failed one changes nothing |
| MockInterview.InterviewStore.ListByOwner | src/app/api/mock-interview/route.js:20 | returns the caller's records and no others, newest first, each once |
| InterviewRoutes.RecordsJson | src/app/api/mock-interview/route.js:22 | the response body is the records' JSON, in order |
| InterviewRoutes.List | src/app/api/mock-interview/route.js:8-23 | 401 without a token; otherwise 200 with exactly the caller's records, newest first |
| InterviewRoutes.Create | src/app/api/mock-interview/route.js:26-59 | the store and response follow the creation specification: 401, 400 on a bad body or failed validation, 201 with the stored record; given a fresh id, a 201 adds exactly that key, an error stores nothing, and no stored record changes |
| InterviewRoutes.CreateAddsOnlyId | src/app/api/mock-interview/route.js:40-58 | with a fresh id, a POST answers 201 iff it writes; a write adds exactly the new id and every earlier record stays as it was |
| InterviewRoutes.PathsOfCreate | src/app/api/mock-interview/route.js:40-47 | the created document carries the caller, the body's fields, `notes \|\| ""` and the schema defaults |
| InterviewRoutes.CreateStoresBody | src/app/api/mock-interview/route.js:40-49 | a complete body is stored as exactly that interview, pending, with an empty conversation and createdAt now |
| InterviewRoutes.CreatedFresh | src/app/api/mock-interview/route.js:40-49 | a created interview is pending with an empty conversation |
| InterviewRoutes.CreateNeedsTitle | src/app/api/mock-interview/route.js:49-57 | a body without a title fails validation with 400 and writes nothing |
| InterviewRoutes.AssignAll | src/app/api/mock-interview/route.js:114-116 | the loop assigns every key of the update and nothing else |
| InterviewRoutes.Restrict | src/app/api/mock-interview/route.js:114-116 | the part of the update already assigned |
| InterviewRoutes.AssignOneMore | src/app/api/mock-interview/route.js:114-116 | one more assignment extends the assigned part by that key |
| InterviewRoutes.Patch | src/app/api/mock-interview/route.js:62-128 | the store and response follow the update specification |
| InterviewRoutes.PatchedDoc | src/app/api/mock-interview/route.js:99-116 | the document after the message push and the assignments |
| InterviewRoutes.PatchNeedsId | src/app/api/mock-interview/route.js:76-82 | a falsy id answers 400 and writes nothing |
| InterviewRoutes.PatchNotOwned | src/app/api/mock-interview/route.js:90-96 | another user's or an unknown interview answers 404 and writes nothing |
| InterviewRoutes.PatchAssignsEveryKey | src/app/api/mock-interview/route.js:99-116 | every key other than `newMessage` is assigned as given |
| InterviewRoutes.ConversationKeyDiscardsMessage | src/app/api/mock-interview/route.js:99-116 | a `conversation` key in the update overwrites the pushed message |
| InterviewRoutes.PatchAppendsMessage | src/app/api/mock-interview/route.js:99-118 | an update holding only a message appends that turn, or fails validation when its content is missing |
| InterviewRoutes.PatchOnlyMessage | src/app/api/mock-interview/route.js:99-111 | with only a message in the update, the document is the conversation with it pushed |
| InterviewRoutes.PatchSetsStatus | src/app/api/mock-interview/route.js:114-118 | assigning a status saves that status only, or fails when it is not enumerated |
| ConversationRoute.Failed | src/app/api/mock-interview/conversation/route.js:188-195 | every thrown error answers 500 with `conversation_failed` and a non-empty message |
| ConversationRoute.CheckedReply | src/app/api/mock-interview/conversation/route.js:102-129 | the checked reply always has statement, animationToPlay and isCompleted; a valid reply or a valid parsed string is kept; anything else is wrapped as a statement |
| ConversationRoute.CheckReply | src/app/api/mock-interview/conversation/route.js:102-129 | the imperative check computes the checked reply |
| ConversationRoute.PlainTextBecomesStatement | src/app/api/mock-interview/conversation/route.js:123-129 | unparseable text becomes the statement, with isCompleted false |
| ConversationRoute.HandleTurn | src/app/api/mock-interview/conversation/route.js:48-196 | the response and the store follow the turn specification, for some shuffle of the picked animations; an unparseable or `null` body is caught as a 500 with the thrown message |
| ConversationRoute.TakeTurn | src/app/api/mock-interview/conversation/route.js:76-186 | after the interview is found: response and store as the turn specification says |
| ConversationRoute.FoundTurnSaved | src/app/api/mock-interview/conversation/route.js:83-100 | once the user turn is saved, the model is asked with the saved interview |
| ConversationRoute.SaveUserTurn | src/app/api/mock-interview/conversation/route.js:77-83 | the first save stores the interview with the candidate's turn appended, or changes nothing |
| ConversationRoute.AskModel | src/app/api/mock-interview/conversation/route.js:86-100 | the model is given the system prompt and the whole history |
| ConversationRoute.Respond | src/app/api/mock-interview/conversation/route.js:102-186 | the rest of the turn, always leaving the saved user turn stored |
| ConversationRoute.SaveAssistantTurn | src/app/api/mock-interview/conversation/route.js:168-179 | the second save stores the interviewer's turn and possibly the completed status |
| ConversationRoute.UnauthorizedWritesNothing | src/app/api/mock-interview/conversation/route.js:51-55 | without a token: 401, nothing written |
| ConversationRoute.BadBodyWritesNothing | src/app/api/mock-interview/conversation/route.js:60-61 | a body `req.json()` rejects, or a `null` body, answers 500 with the thrown message (the destructuring TypeError for `null`) and writes nothing |
| ConversationRoute.NotFoundWritesNothing | src/app/api/mock-interview/conversation/route.js:63-74 | an unknown or foreign interview: 404, nothing written |
| ConversationRoute.UserTurnSavedFirst | src/app/api/mock-interview/conversation/route.js:77-83 | an empty transcript fails validation before the model is asked; otherwise the candidate's turn stays saved whatever happens later |
| ConversationRoute.AssistantTurnShape | src/app/api/mock-interview/conversation/route.js:154-186 | after the model: a failure leaves the interview as saved; a success appends exactly one turn |
| ConversationRoute.AssistantSave | src/app/api/mock-interview/conversation/route.js:168-179 | the second save appends the statement as an assistant turn and sets completed iff isCompleted is truthy |
| ConversationRoute.SuccessfulTurn | src/app/api/mock-interview/conversation/route.js:154-186 | a 200 means a truthy statement was appended and returned, with `audioBase64` null when speech failed |
| ConversationRoute.SuccessBodyFields | src/app/api/mock-interview/conversation/route.js:181-186 | the response body carries the checked reply, and null audio when there is none |
| ConversationRoute.FalsyStatementFails | src/app/api/mock-interview/conversation/route.js:154-156 | a falsy statement answers 500 "Failed to generate AI response" and writes no assistant turn |
| ConversationRoute.ModelSeesWholeHistory | src/app/api/mock-interview/conversation/route.js:86-100 | the model input is the system prompt followed by every saved turn, as role and content |
| ConversationRoute.AllAnimationsIgnored | src/app/api/mock-interview/conversation/route.js:60 | the body's `allAnimations` has no effect on the turn |
| InterviewerPrompt.Picked | src/lib/AI-InterviewerPrompt.js:9-12 | one tag per animation group, taken from that group |
| InterviewerPrompt.SortByCoins | src/lib/AI-InterviewerPrompt.js:13 | the shuffle permutes the picked tags |
| InterviewerPrompt.GetShuffledAnimations | src/lib/AI-InterviewerPrompt.js:9-14 | the animations sent are a permutation of the picks |
| InterviewerPrompt.OneTagPerGroup | src/lib/AI-InterviewerPrompt.js:2-14 | three tags: exactly one of talk/talk2, one idle, one clap |
| InterviewerPrompt.JsonStringArray | src/lib/AI-InterviewerPrompt.js:17 | `JSON.stringify` of the tags is bracketed, and is `[]` exactly for no tags |
| InterviewerPrompt.JsonItemsInjective | src/lib/AI-InterviewerPrompt.js:17 | for tags without double quotes, the comma-separated quoted items determine the tags |
| InterviewerPrompt.JsonListInjective | src/lib/AI-InterviewerPrompt.js:17 | for tags without double quotes, `JSON.stringify` of the list determines the list |
| InterviewerPrompt.SkillsClause | src/lib/AI-InterviewerPrompt.js:21-23 | the skills sentence appears iff there are skills, joined by ", " |
| InterviewerPrompt.NotesClause | src/lib/AI-InterviewerPrompt.js:25-27 | the notes sentence appears iff the notes are non-empty |
| InterviewerPrompt.BuildSystemPrompt | src/lib/AI-InterviewerPrompt.js:1-77 | the prompt is the specified text for a permutation of the picks |
| InterviewerPrompt.DifficultyLowered | src/lib/AI-InterviewerPrompt.js:19 | the difficulty is quoted in lower case |
| InterviewerPrompt.InstructionsEmbedList | src/lib/AI-InterviewerPrompt.js:29-74 | the instructions quote the animations list |
| InterviewerPrompt.PromptDeterminesList | src/lib/AI-InterviewerPrompt.js:16-74 | two prompts for the same interview are equal only if they embed the same JSON list, and then (tags without quotes, as every animation tag is) the same shuffled list |
| InterviewerPrompt.FormattingPrompt | src/lib/AI-InterviewerPrompt.js:79-101 | the formatting prompt holds the raw response in double quotes right after the introduction, and the animations list twice, at fixed offsets |
| InterviewerPrompt.FormattingPromptInjective | src/lib/AI-InterviewerPrompt.js:79-101 | different raw responses give different formatting prompts |
| Groq.MapMessages | src/actions/groq.js:20-31 | messages keep their order; only a last user message gets the image, as text plus image_url parts |
| Groq.FullMessages | src/actions/groq.js:20-33 | the system prompt is put first, followed by the mapped messages |
| Groq.GenerateAiDataGroq | src/actions/groq.js:10-52 | a non-array fails with the input error; with an image given, the first `null` or `undefined` message throws "Cannot read properties of null/undefined (reading 'role')"; any other failure becomes the generic error; success is the parsed reply |
| Groq.FirstNothing | src/actions/groq.js:20-21 | the index `map` reaches first among the `null` or `undefined` messages |
| Groq.StrictResultIsObject | src/actions/groq.js:45-47 | without ignoreFormat a result is always an object |
| Groq.PermissiveNeverFailsOnFormat | src/actions/groq.js:45-47 | with ignoreFormat a reply string never fails to parse |
| Groq.NoImagePassesThrough | src/actions/groq.js:20-33 | without an image the messages are passed as given after the system prompt |
| Groq.OnlyLastUserMessageGetsImage | src/actions/groq.js:21 | a message gets the image iff it is the last one, from the user, and an image is given |
| Utils.StripLeadingFence | src/lib/utils.js:16 | the opening fence is removed only when present, and then the text shrinks |
| Utils.FenceTag | src/lib/utils.js:16 | the greedy `(?:json)?\n?`: the longest of `json\n`, `json`, `\n` and the empty text that the text starts with |
| Utils.LeadingFenceRemoved | src/lib/utils.js:16 | a fenced text is the fence, its greedy tag and the result, in that order: nothing else is removed |
| Utils.StripTrailingFence | src/lib/utils.js:16 | the closing fence is removed only when present |
| Utils.CleanReply | src/lib/utils.js:14-17 | the cleaned reply is trimmed, and unfenced replies are only trimmed |
| Utils.ParseAiJsonResponse | src/lib/utils.js:8-35 | a non-string throws with its type; an object parse is returned; otherwise the cleaned text with ignoreFormat, or the invalid-JSON error |
| Utils.CleanWrapped | src/lib/utils.js:14-17 | a fenced json body comes back as the body |
| Utils.FencedReplyCleaned | src/lib/utils.js:14-17 | surrounding whitespace does not matter to the cleaning |
| Utils.FencedObjectAccepted | src/lib/utils.js:14-27 | a fenced JSON object is parsed as that object |
| Utils.SameCleanSameResult | src/lib/utils.js:14-35 | replies that trim alike parse alike |
| Utils.SplitWs | src/lib/utils.js:40 | `split(/\s+/)` always yields at least one word, so `words[0]` exists |
| Utils.SplitFirst | src/lib/utils.js:40 | the first word runs up to the first space, and there is one word iff the text has no space |
| Utils.GetInitials | src/lib/utils.js:38-48 | a missing or empty name gives "??"; otherwise, for names whose initials upper-case to one character each (ASCII names), two characters; it throws exactly for a blank non-empty name |
| Utils.InitialsOfName | src/lib/utils.js:38-48 | a name with a non-space character gives the initials of its trimmed text, upper-cased in ASCII |
| Utils.PickedFromText | src/lib/utils.js:41-47 | one word gives its first two letters, or the first letter twice; several give the first letters of the first and last words |
| Utils.GetInitialsFixed | src/lib/utils.js:38-48 | for ASCII names, two characters always; "??" for a missing or blank name; otherwise equal to the code as written |
| Utils.BlankNameThrows | src/lib/utils.js:39-43 | a name of one space throws as written, and gives "??" when corrected |
| SpeechRecognition.Mounted | src/hooks/useSpeechRecognition.js:78-100 | an engine exists iff the API is supported in a secure context; otherwise the matching error is set |
| SpeechRecognition.StepsKeepConsistent | src/hooks/useSpeechRecognition.js:41-155 | no step captures audio without an engine |
| SpeechRecognition.NoEngineNoOp | src/hooks/useSpeechRecognition.js:41-76 | without an engine start and stop do nothing |
| SpeechRecognition.StopLeavesEngineRunning | src/hooks/useSpeechRecognition.js:67-76 | stop only raises the manual flag and clears the indicator; the engine keeps capturing |
| SpeechRecognition.ResumeSkipsPermission | src/hooks/useSpeechRecognition.js:45-49 | resuming after a manual stop asks for no permission and sets listening |
| SpeechRecognition.DeniedStart | src/hooks/useSpeechRecognition.js:25-52 | a denied permission sets the denial error and starts nothing |
| SpeechRecognition.GrantedStart | src/hooks/useSpeechRecognition.js:51-63 | a granted start captures and clears the error, or reports the start failure and stops listening |
| SpeechRecognition.ResultGating | src/hooks/useSpeechRecognition.js:102-118 | results are ignored after a manual stop; otherwise the transcript is set and delivered to a callback |
| SpeechRecognition.ErrorHandling | src/hooks/useSpeechRecognition.js:121-150 | "no-speech" changes nothing; any other error stops listening and sets its own message, except "aborted", which keeps the old one; "not-allowed" also clears the permission |
| SpeechRecognition.ErrorMessagesDistinct | src/hooks/useSpeechRecognition.js:131-144 | different error codes give different messages |
| SpeechRecognition.EndStopsEverything | src/hooks/useSpeechRecognition.js:152-155 | end clears listening and capture and keeps the rest |
| SpeechRecognition.ResumeAfterEndIsNotListening | src/hooks/useSpeechRecognition.js:45-49 | start, stop, end, start leaves the indicator on with no audio captured |
| SpeechRecognition.FixedKeepsHonest | src/hooks/useSpeechRecognition.js:41-155 | with the corrected start, every step keeps "listening implies capturing" |
| SpeechRecognition.SpeechHook.Mount | src/hooks/useSpeechRecognition.js:16-100 | the hook's state after mounting |
| SpeechRecognition.SpeechHook.CheckPermission | src/hooks/useSpeechRecognition.js:25-38 | granted sets the permission; denied sets the denial error and clears it |
| SpeechRecognition.SpeechHook.Start | src/hooks/useSpeechRecognition.js:41-64 | the state after `startRecognition`, keeping consistency |
| SpeechRecognition.SpeechHook.Stop | src/hooks/useSpeechRecognition.js:67-76 | the state after `stopRecognition` |
| SpeechRecognition.SpeechHook.OnResult | src/hooks/useSpeechRecognition.js:102-118 | the state after a result, and what is delivered to `onResult` |
| SpeechRecognition.SpeechHook.OnError | src/hooks/useSpeechRecognition.js:121-150 | the state after an error event |
| SpeechRecognition.SpeechHook.OnEnd | src/hooks/useSpeechRecognition.js:152-155 | the state after the end event |
| SearchFilter.WithEntry | src/components/ui/SearchFilter.jsx:47-54 | a spread-and-override changes one key only |
| SearchFilter.WithText | src/components/ui/SearchFilter.jsx:79-85 | a text input sets its key and nothing else |
| SearchFilter.WithFlag | src/components/ui/SearchFilter.jsx:262-278 | a switch sets its flag and nothing else |
| SearchFilter.ApiFiltersShape | src/components/ui/SearchFilter.jsx:47-54 | the query has only strings; the flags are "true" or ""; only the current tab's title is sent |
| SearchFilter.PushedInOrder | src/components/ui/SearchFilter.jsx:57-72 | the badges pushed are those of the active keys in the fixed order |
| SearchFilter.BadgesAreActiveKeys | src/components/ui/SearchFilter.jsx:57-72 | there is a badge for a key iff it is active, with its label, and no more badges than keys |
| SearchFilter.BadgeKeysDistinct | src/components/ui/SearchFilter.jsx:57-72 | badge keys are distinct, as the React key requires |
| SearchFilter.InactiveTitleHasNoBadge | src/components/ui/SearchFilter.jsx:60-64 | the other tab's title never shows a badge |
| SearchFilter.Selected | src/components/ui/SearchFilter.jsx:88-93 | "any" selects the empty value; others are set as given |
| SearchFilter.Reset | src/components/ui/SearchFilter.jsx:97-100 | the removed key becomes inactive and nothing else changes |
| SearchFilter.WithoutKey | src/components/ui/SearchFilter.jsx:102 | the badges keep all but the removed key's |
| SearchFilter.RemoveMatchesResubmit | src/components/ui/SearchFilter.jsx:96-102 | removing a badge gives the badges a new submit would show |
| SearchFilter.RemovedSendsRaw | src/components/ui/SearchFilter.jsx:105-110 | the removal query is the raw filters with that key emptied |
| SearchFilter.RemovedQueryIsNotApiForm | src/components/ui/SearchFilter.jsx:105-110 | as written, removing a badge sends a boolean flag and the hidden tab's title |
| SearchFilter.RemovedApiChangesOneKey | src/components/ui/SearchFilter.jsx:105-110 | the corrected removal query equals the submit query except the removed key is emptied |
| SearchFilter.NothingActiveWhenEmpty | src/components/ui/SearchFilter.jsx:114-129 | cleared filters have no badges |
| SearchFilter.FilterPanel.constructor | src/components/ui/SearchFilter.jsx:27-40 | initial state: empty filters, no badges, basic tab |
| SearchFilter.FilterPanel.Submit | src/components/ui/SearchFilter.jsx:43-76 | sends the API form of the filters and shows the active badges |
| SearchFilter.FilterPanel.CollectBadges | src/components/ui/SearchFilter.jsx:57-72 | the pushes build the badges in order |
| SearchFilter.FilterPanel.Change | src/components/ui/SearchFilter.jsx:79-85 | a text change updates the filters only |
| SearchFilter.FilterPanel.Toggle | src/components/ui/SearchFilter.jsx:262-278 | a switch updates its flag only |
| SearchFilter.FilterPanel.SetSearchType | src/components/ui/SearchFilter.jsx:134 | switching tab changes only the tab |
| SearchFilter.FilterPanel.SelectChange | src/components/ui/SearchFilter.jsx:88-93 | a select updates the filters only |
| SearchFilter.FilterPanel.RemoveFilter | src/components/ui/SearchFilter.jsx:96-111 | resets the key, drops its badge and sends the as-written query |
| SearchFilter.FilterPanel.ClearAll | src/components/ui/SearchFilter.jsx:114-129 | empty filters, no badges, sends the empty filters |
| SearchFilter.ClearedPanelMatchesSubmit | src/components/ui/SearchFilter.jsx:114-129 | after clearing, the badges agree with what a submit would show |

## Left out

- ObjectId casts are not modelled: `userId` and `_id` are plain strings, and a malformed id (a Mongoose CastError) is treated like an unknown id.
- Mongoose's cast of a single value to a one-element array is not modelled. A non-array `skills` or `conversation` fails validation.
- The `timestamps` option (`updatedAt`) and turn timestamps are not modelled. The stored `createdAt` is the clock value passed in.
- Key order in JSON bodies is not modelled: objects are maps.
- `dbConnect`, `verifyToken`, `req.json()`, `JSON.parse`, the Groq SDK and the ElevenLabs `generateSpeech` call (conversation route lines 14-44) are I/O. Each is a parameter or an oracle.
- `Math.random` is replaced by parameters: the index picked per group, and the outcome of each comparator call of the shuffle.
- The shuffle is modelled by an insertion sort driven by the comparator outcomes (`SortByCoins`). Only the permutation is stated, so nothing relies on the particular algorithm the engine's `sort` uses.
- The concurrency of `async` handlers is not modelled. Each handler runs to completion against the store.
- The commented-out second formatting call in the conversation route is not modelled. `buildFormattingPrompt` is modelled on its own.
- `PATCH` keys that name document methods rather than schema paths are not modelled. Such keys are stored as plain fields and ignored by validation.
- Console logging is left out everywhere.
- The hook's effect cleanup is not modelled; it stops the engine only when a stale `isListening` is true. Re-running the effect when `hasMicrophonePermission` changes is not modelled either: the model keeps the engine made on mount.
- `continuous`, `lang` and `interimResults` are not modelled; they only configure the engine.
- SearchFilter.FilterPanel.Change: takes text keys only. `handleChange`'s checkbox branch is wired to no input, and the switches use `onCheckedChange` (`Toggle`).
- SearchFilter.FilterPanel.SelectChange: takes text keys only. `handleSelectChange` is never called in this component (it renders no select), so the restriction excludes no reachable call.
- `cn` and `fileToBase64` in the utility file are not modelled: one delegates to CSS libraries, the other is browser I/O.
- The rendering of every component is not modelled.
- Utils.GetInitials: upper-casing is ASCII only. JavaScript's `toUpperCase` maps every letter ("élise" gives "ÉL"), and some letters to two ("ß" gives "SS"), so for such names the result differs and can be longer than two characters.
- Utils.GetInitials: JavaScript strings index UTF-16 code units, so a name that starts with a character outside the Basic Multilingual Plane yields half a surrogate pair; here a `char` is a whole code point.
- Utils.InitialsOfName: ASCII-only upper-casing, as for `GetInitials`.
- Utils.GetInitialsFixed: ASCII-only upper-casing and code-point indexing, as for `GetInitials`.
- JsValues.ToUpper: maps only `a`-`z`; `JsValues.ToLower` maps only `A`-`Z`. The difficulty names it lowers are ASCII, so the prompt is exact there.
- MockInterview.Encode: the document omits `__v` and the `_id` Mongoose gives each conversation entry; a reloaded document carries both.
- JsValues.Value: a number is an integer. Fractions, `NaN` and the infinities are not modelled; `createdAt` is integer milliseconds.
- MockInterview.DecodePaths: `createdAt` is accepted only as a number. Mongoose's Date cast is not modelled: it turns a date string such as "2024-05-01T00:00:00.000Z" into a Date and `""` or `null` into `null`. So a `PATCH` assigning `createdAt` one of those values saves and answers 200 in the source, but fails validation here and answers 400. Likewise the JSON that `GET` returns carries `createdAt` as an ISO date string, where the model has the number.
- MockInterview.DecodeStrings: rejects a `null` element of `skills`, which Mongoose's String cast keeps inside an array.
- MockInterview.SaveResult: a failed validation carries the message "MockInterview validation failed". Mongoose appends each failing path and its reason, and those details are not modelled.
- InterviewRoutes.Create: requires an id that no stored record has, as a freshly generated ObjectId is; a colliding id is not modelled.

## Findings

| source | as written | input that shows it | evidently intended | confidence | as-written member | corrected member |
|---|---|---|---|---|---|---|
| src/lib/utils.js:38-48 | a blank name passes the `!name` check. It trims to `""` and splits to `[""]`, so `words[0][0]` is undefined and `.toUpperCase()` throws a TypeError | `getInitials(" ")` | "??" like a missing name | not executed | Utils.BlankNameThrows | Utils.GetInitialsFixed |
| src/hooks/useSpeechRecognition.js:45-49 | resuming after a manual stop only sets `isListening`. If the engine fired `end` meanwhile, nothing is captured while the indicator is on | start (granted), stop, engine `end`, start | restart the engine unless it is still capturing | not executed | SpeechRecognition.ResumeAfterEndIsNotListening | SpeechRecognition.FixedKeepsHonest |
| src/components/ui/SearchFilter.jsx:105-110 | `removeFilter` hands `onFilter` the raw filters, not the API form `handleSubmit` builds: `remote`/`agency` stay booleans and both titles are sent | filters `remote = true`, `advanced_title_filter = "rust"` on the basic tab, remove the location badge | the submit query with the removed key emptied | not executed | SearchFilter.RemovedQueryIsNotApiForm | SearchFilter.RemovedApiChangesOneKey |
