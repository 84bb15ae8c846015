# CorpBot front end: a verified model

CorpBot is a single-page corporate assistant. A signed-in user talks to one
of six AI personas. Each persona is a Gemini chat session with its own system
instruction, and the user's corporate role decides which personas the
sidebar offers. Tool calls (`setReminder`, `scheduleMeeting`) run in the
middle of a streamed reply, and smart follow-up suggestions arrive after
each reply. The source tree also holds three work-panel components, which
the app does not yet render (App.tsx:312-344 shows every view other than the
chat as "coming soon"); the model covers them as stand-alone components:

- a task reminder board, with filters, sorting and overdue and upcoming lists;
- a meeting "descheduler", with a participant list, a status life cycle and an
  upcoming list;
- a future-prediction panel, which turns a model reply into a prediction card.

This project models that core in Dafny. Each part takes the form of its
source:

| Module | Models | Form |
|---|---|---|
| `Types` | the records and enums | datatypes |
| `Personas` | the persona table | a constant and lemmas |
| `Sidebar` | role filtering and icons | functions and lemmas |
| `Gemini` | the session setup, outgoing messages and suggestion parsing | pure functions |
| `Turn` | one streamed reply | a specification: events stepped over a turn state |
| `Chat` | the application state | the class `ChatApp`; its message handler is a method proved against `Turn` |
| `TaskReminder`, `Descheduler`, `FuturePrediction` | the three panels | one class each (`ReminderBoard`, `MeetingBoard`, `PredictionBoard`), specified by value-level functions with lemmas about them |

Two generic modules support the rest:

- `Text` has ASCII trimming, lower-casing, substring search, splitting and
  joining.
- `Seqs` has filter, take and an insertion sort by an integer pair key.

Things outside the program become parameters:

- the clock and ids;
- model replies: a stream of chunks with failure flags, or `None` for a failed
  request;
- `JSON.parse`, as a function `string -> Option<Parsed>`;
- the date-input formatter;
- the answer to a `confirm()` dialog.

## Model

| member | source | states |
|---|---|---|
| Personas.ConfigOf | constants.ts:11-57 | every persona has a row in the mode table, and it is the one with that persona's id |
| Personas.ModesCoverEveryPersona | constants.ts:11-57 | the table has six rows with pairwise distinct ids and covers every persona |
| Personas.UnrestrictedPersonas | constants.ts:11-57 | General, Email Drafter and Wellness carry no role restriction |
| Personas.RestrictedPersonas | constants.ts:26-49 | Strategist is for managers and executives, Tech Architect for employees, managers and executives, and HR Specialist for HR admins only |
| Sidebar.VisibleInMembers | components/Sidebar.tsx:49-51 | a row is kept exactly when it has no role list or its list includes the user's role |
| Sidebar.VisibleModes | components/Sidebar.tsx:49-51 | the visible personas are exactly the table rows the user's role may use |
| Sidebar.VisibleInSubsequence | components/Sidebar.tsx:49-51 | filtering keeps the table's order (the result is a subsequence) |
| Sidebar.VisibleModesOrdered | components/Sidebar.tsx:49-51 | the sidebar lists personas in table order |
| Sidebar.MayUseByRole | components/Sidebar.tsx:49-51 | per persona, which roles may use it (Strategist: manager or executive; Tech Architect: all but HR admin; HR Specialist: HR admin only; the rest: everyone) |
| Sidebar.VisibleModesByRole | components/Sidebar.tsx:49-51 | for each role, the exact set of personas the sidebar shows |
| Sidebar.HrAdminVisibility | components/Sidebar.tsx:49-51 | an HR admin never sees Strategist or Tech Architect, and only an HR admin sees HR Specialist |
| Sidebar.UnrestrictedAlwaysVisible | components/Sidebar.tsx:49-51 | a persona without a role list is shown to every role |
| Sidebar.IconFor | components/Sidebar.tsx:36-46 | each known icon name maps to its own icon, and every other name falls back to the briefcase |
| Sidebar.TableIconsDistinct | components/Sidebar.tsx:36-46 | the six personas get six different icons |
| Sidebar.SelectVisible | components/Sidebar.tsx:91-97 | clicking the i-th visible entry selects a persona the user's role may use, namely that entry's persona |
| Gemini.ToolRequirements | services/gemini.ts:8-33 | each tool's required parameters are declared parameters; the required lists are task,time and topic,participants,time |
| Gemini.RoleContext | services/gemini.ts:69-70 | the role context quotes the user's role value |
| Gemini.SystemInstruction | services/gemini.ts:44-70 | the instruction is the persona's text followed by the role context |
| Gemini.ToolsFor | services/gemini.ts:74-78 | tools are offered exactly to General and Email Drafter, and then both tools |
| Gemini.CreateChatSession | services/gemini.ts:44-88 | the session config carries that instruction and those tools |
| Gemini.MessageFor | services/gemini.ts:90-113 | without an attachment the text goes alone; with one, inline data comes first, then the text or the default document prompt if the text is empty, so the text part is never empty |
| Gemini.ContextLines | services/gemini.ts:120 | one "role: content" line per message, in order |
| Gemini.LastThree | services/gemini.ts:120 | the last min(3, n) messages of the history |
| Gemini.ContextUsesLastThree | services/gemini.ts:120 | only the last three messages reach the suggestion prompt: earlier history does not change it |
| Gemini.ContextOfThree | services/gemini.ts:120 | three messages give their three lines joined by newlines |
| Gemini.ParseSuggestions | services/gemini.ts:133-134 | the first min(3, n) of the n trimmed, non-empty pipe-separated pieces of the reply, in order; each is non-empty, trimmed and free of pipes |
| Gemini.SmartSuggestions | services/gemini.ts:116-139 | a failed request gives the three fallback phrases; in every case at most three non-empty suggestions |
| Gemini.ParseSuggestionsRoundTrip | services/gemini.ts:134 | one to three trimmed, non-empty, pipe-free phrases joined with pipes parse back to exactly those phrases |
| Gemini.SplitJoinPipes | services/gemini.ts:134 | splitting a pipe-joined list of pipe-free pieces gives the pieces back |
| Turn.Arg | App.tsx:148-153 | a present argument is used as is; a missing one prints as "undefined" |
| Turn.ReminderResult | App.tsx:149 | the reminder confirmation quotes the task |
| Turn.MeetingResult | App.tsx:153 | the meeting confirmation quotes the topic |
| Turn.ExecuteFunction | App.tsx:142-165 | for a call that does not throw (a known tool without an arguments object throws, see Chat.InvokeSpec): exactly one response carrying the call's id and name, with the reminder text, the meeting text or "not implemented" by tool name |
| Turn.ResponseMessage | App.tsx:216-226 | one function-response part per response, in order, with the same name, result and id |
| Turn.ReplyEvents | App.tsx:228-237 | each text piece of a tool's follow-up stream becomes one text delta, in order |
| Turn.RunConcat | App.tsx:204-251 | running events in two parts is running them at once |
| Turn.RunAfterFailure | App.tsx:258-268 | after a failure nothing further changes the turn |
| Turn.FailureStopsTurn | App.tsx:258-268 | a failure freezes the reply text and outgoing log at the point it happened |
| Turn.RunExtends | App.tsx:204-251 | the reply text only grows by appending, and the outgoing log only grows |
| Turn.ReplyRun | App.tsx:228-237 | a tool's follow-up stream appends all its pieces to the reply |
| Turn.InvocationRun | App.tsx:211-237 | a tool call that does not fail sends its response and appends its follow-up text |
| Turn.CallsRun | App.tsx:209-239 | the tool calls of a chunk run one after another, adding their texts and responses in order |
| Turn.ChunkRun | App.tsx:206-250 | a chunk first runs its tool calls and then appends its own text |
| Turn.StreamRun | App.tsx:206-251 | a stream without failures adds every chunk's text and every tool response, in order |
| Turn.TurnWithoutFailure | App.tsx:198-251 | a whole turn without failures yields the concatenated stream text and all tool responses |
| Turn.FreshTurnWithoutFailure | App.tsx:198-251 | starting from an empty reply, a turn without failures ends with exactly the stream text |
| Chat.SessionConfig | App.tsx:49-50 | a session offers tools exactly in General and Email Drafter, and its instruction starts with the persona's text |
| Chat.DecimalStringInjective | App.tsx:172-188 | distinct clock values give distinct decimal ids |
| Chat.SetContent | App.tsx:231-235 | only the messages with the reply's id get the new content; all others stay |
| Chat.SetContentTwice | App.tsx:245-249 | a later content update replaces an earlier one |
| Chat.PublishMore | App.tsx:243-249 | publishing the reply after one more piece is publishing the longer reply |
| Chat.PublishedKeepsEarlier | App.tsx:231-235 | publishing the reply leaves every earlier message unchanged and shows the reply text, or the placeholder while it is empty |
| Chat.TextToSend | App.tsx:168 | a non-empty override text wins over the input box |
| Chat.ConsumeToolReply | App.tsx:228-237 | the loop appends every piece, and the published reply always shows the text so far |
| Chat.Invoke | App.tsx:211-237 | one tool call, including one that throws, matches the turn specification, and the published reply matches its text |
| Chat.InvokeSpec | App.tsx:142-237 | a known tool called without an arguments object throws: the turn fails and nothing is sent; any other call adds its follow-up text and its response, and fails when its follow-up stream fails |
| Chat.InvocationFails | App.tsx:211-237 | a call that throws or loses its follow-up stream leaves the turn failed |
| Chat.ToolFailureEndsTurn | App.tsx:206-265 | a failing tool call anywhere in the stream fails the whole turn, which then ends in the catch |
| Chat.CallsFailedPrefix | App.tsx:211-237 | once a tool call fails, the rest of the calls change nothing |
| Chat.StreamFailedPrefix | App.tsx:206-251 | once the stream fails, the rest of the chunks change nothing |
| Chat.InvokeAll | App.tsx:209-239 | the loop over a chunk's tool calls matches the turn specification |
| Chat.ConsumeChunk | App.tsx:207-250 | one chunk (tool calls, then text) matches the turn specification |
| Chat.StreamReply | App.tsx:198-251 | the streaming loop, including an early stop on failure, matches the turn specification, and the published reply shows its text |
| Chat.Exchange | App.tsx:171-268 | a send matches the specification of one exchange: user entry, placeholder, stream, then the notice or the suggestions |
| Chat.PublishReply | App.tsx:191-196 | when ids are fresh, publishing fills exactly the placeholder behind the user's entry |
| Chat.SettleFailure | App.tsx:258-265 | a failed reply keeps the earlier transcript, the entry and the partly filled reply, then the notice, with no follow-up and no suggestions |
| Chat.SettleWithoutFailure | App.tsx:253-256 | after a successful reply the history ends with the entry and the reply, and suggestions come from the history plus the reply |
| Chat.EntryIsNotReply | App.tsx:172-188 | the user's entry and the reply placeholder get different ids unless the reply's clock reading is exactly one less than the entry's |
| Chat.SendWithoutFailure | App.tsx:167-256 | a send without failures appends the entry and the full reply text, records the message and the tool responses, and asks for suggestions |
| Chat.SendFailure | App.tsx:167-268 | a broken-off stream fails the turn; any failed send (stream or tool call) leaves the earlier transcript unchanged, then the user's entry, the reply entry holding the text that arrived before the failure, and the connection notice; the log holds what was sent, and there is no follow-up and no suggestions |
| Chat.ChatApp.constructor | App.tsx:26-40 | the initial state: signed out, dashboard, no messages, General persona, no session |
| Chat.ChatApp.Login | App.tsx:72-75 | stores the user and shows the dashboard, nothing else changes |
| Chat.ChatApp.Logout | App.tsx:77-84 | clears user, messages, session and file, resets the persona to General and shows the dashboard |
| Chat.ChatApp.InitSession | App.tsx:49-58 | a fresh session for the persona and role, one greeting message, no suggestions |
| Chat.ChatApp.Navigate | App.tsx:86-95 | opening the chat re-creates a General session without touching the selected persona, so session and persona agree only if General was selected |
| Chat.ChatApp.NavigateCorrected | App.tsx:86-95 | opening the chat also selects General, so session and persona always agree |
| Chat.ChatApp.BackToDashboard | App.tsx:97-99 | only the view changes |
| Chat.ChatApp.ModeSelect | App.tsx:101-107 | a different persona (when signed in) gets a fresh session and greeting and closes the sidebar; otherwise nothing changes |
| Chat.ChatApp.ClearChat | App.tsx:109-113 | when signed in, a fresh session and greeting for the current persona |
| Chat.ChatApp.SetSidebarOpen | App.tsx:36 | only the sidebar flag changes |
| Chat.ChatApp.SetInput | App.tsx:282 | only the input text changes |
| Chat.ChatApp.SelectFile | App.tsx:116-134 | a PDF or image is accepted (and only then) and becomes the attachment, holding the data URL's payload |
| Chat.ChatApp.ClearFile | App.tsx:136-139 | only the attachment is cleared |
| Chat.ChatApp.SendMessage | App.tsx:167-269 | the guard (text or file, a session, not already streaming) is matched exactly; a refused send changes nothing; an accepted one clears input, file and suggestions and applies the exchange's specification |
| Chat.PayloadOfDataUrl | App.tsx:122 | the payload is the part after the comma |
| Chat.NavigateDesync | App.tsx:86-95 | a concrete sequence (log in as a manager, pick Strategist, open the chat) leaves a General session under a Strategist selection |
| Chat.NavigateInSync | App.tsx:86-95 | the same sequence with the corrected handler keeps session and selection in agreement |
| Text.Trim | services/gemini.ts:134 | the result has no whitespace at either end |
| Text.BlankIffTrimEmpty | App.tsx:169 | a text is blank exactly when it trims to the empty string |
| Text.Contains | components/TaskReminder.tsx:77-84 | substring search finds exactly the positions where the needle occurs |
| Text.JoinSplit | services/gemini.ts:134 | joining the pieces of a split with the separator gives the text back |
| Text.SplitConcat | services/gemini.ts:134 | splitting at one separator splits each side on its own, left pieces first |
| Text.Pieces | components/Descheduler.tsx:83 | the split, trimmed, non-empty pieces: each is non-empty, trimmed and free of the separator |
| Text.PiecesConcat | services/gemini.ts:134 | the pieces on either side of a separator come in order, left side first |
| Text.PiecesSingle | services/gemini.ts:134 | text without the separator is one piece, its trimmed self, or none when that is empty |
| Seqs.SortBy | components/TaskReminder.tsx:86-92 | the sort is sorted by key and a permutation |
| TaskReminder.SelectorsOff | components/TaskReminder.tsx:67-84 | a selector set to "all" (or an empty search) keeps the list unchanged |
| TaskReminder.ShownIsSortedSelection | components/TaskReminder.tsx:64-95 | the shown list is sorted (open before completed, then by due date), is a selection of the reminders, and keeps every copy of each passing reminder |
| TaskReminder.ShownBySelector | components/TaskReminder.tsx:67-84 | each shown reminder has the chosen priority, the chosen status and matches the search in task, category or notes |
| TaskReminder.UnfilteredShowsAll | components/TaskReminder.tsx:64-95 | with no selector every reminder is shown, and refiltering the shown list changes nothing |
| TaskReminder.Edited | components/TaskReminder.tsx:109-121 | the edited reminder takes the form's fields and keeps its id and completion; others are untouched |
| TaskReminder.Toggled | components/TaskReminder.tsx:168-172 | only the reminder with the id flips its completion |
| TaskReminder.ToggleTwice | components/TaskReminder.tsx:168-172 | toggling twice restores the list |
| TaskReminder.Deleted | components/TaskReminder.tsx:162-166 | exactly the reminders with other ids remain |
| TaskReminder.DeletedKeepsOrder | components/TaskReminder.tsx:164 | deleting works element by element, so order is kept |
| TaskReminder.Overdue | components/TaskReminder.tsx:193-207 | exactly the open reminders due before now |
| TaskReminder.Candidates | components/TaskReminder.tsx:204 | exactly the shown reminders that are open and due now or later, with every copy |
| TaskReminder.Upcoming | components/TaskReminder.tsx:203-205 | the first five candidates in shown order (a prefix of them), or all of them when fewer than five qualify |
| TaskReminder.OverdueNotUpcoming | components/TaskReminder.tsx:193-207 | no reminder is both upcoming and overdue |
| TaskReminder.Filtered | components/TaskReminder.tsx:64-95 | the step-by-step filter and sort compute the shown list |
| TaskReminder.RefilteredInStep | components/TaskReminder.tsx:64-95 | the filter effect keeps the reminders as a multiset, leaves the shown list in step with them, and is idempotent |
| TaskReminder.ReminderBoard.constructor | components/TaskReminder.tsx:10-23 | empty lists, no filters, closed empty form |
| TaskReminder.ReminderBoard.ApplyFilters | components/TaskReminder.tsx:64-95 | shows the filtered, sorted list; with no selector the sort also reorders the stored reminders |
| TaskReminder.ReminderBoard.SetQuery | components/TaskReminder.tsx:253 | typing in the search box changes only the query |
| TaskReminder.ReminderBoard.SetPriorityFilter | components/TaskReminder.tsx:260 | the priority select changes only the priority filter |
| TaskReminder.ReminderBoard.SetStatusFilter | components/TaskReminder.tsx:270 | the status select changes only the status filter |
| TaskReminder.ReminderBoard.Submit | components/TaskReminder.tsx:105-136 | an empty task or date changes nothing; otherwise the edited reminder is updated or a new open one is appended, and the form is reset |
| TaskReminder.ReminderBoard.ResetForm | components/TaskReminder.tsx:138-148 | closes and empties the form |
| TaskReminder.ReminderBoard.Edit | components/TaskReminder.tsx:150-160 | opens the form filled from the reminder, with missing category and notes as empty text |
| TaskReminder.ReminderBoard.Delete | components/TaskReminder.tsx:162-166 | removes the reminder only when confirmed |
| TaskReminder.ReminderBoard.ToggleComplete | components/TaskReminder.tsx:168-172 | flips the reminder's completion |
| Descheduler.ParseParticipants | components/Descheduler.tsx:83 | every parsed name is non-empty, trimmed and free of commas (which names, in which order: Descheduler.ParticipantsConcat and Descheduler.ParticipantsSingle) |
| Descheduler.ParticipantsConcat | components/Descheduler.tsx:83 | the names typed before a comma come first, then those after it |
| Descheduler.ParticipantsSingle | components/Descheduler.tsx:83 | text without a comma gives its trimmed self as the one name, or no name when it is blank |
| Descheduler.SplitJoinedNames | components/Descheduler.tsx:137 | splitting the ", "-joined names gives the first name and each later one with a leading space |
| Descheduler.ParticipantsRoundTrip | components/Descheduler.tsx:83 | parsing the text that the edit handler builds gives back the meeting's participants |
| Descheduler.SelectorsOff | components/Descheduler.tsx:63-74 | the status "all" and an empty search keep the list |
| Descheduler.ShownMembers | components/Descheduler.tsx:60-77 | a meeting is shown exactly when it has the chosen status and matches the search in title, a participant or location, keeping every copy |
| Descheduler.Filtered | components/Descheduler.tsx:60-77 | the step-by-step filter computes the shown list |
| Descheduler.NeverBackToScheduled | components/Descheduler.tsx:85-100 | no transition leads back to "scheduled" from another status |
| Descheduler.Edited | components/Descheduler.tsx:85-100 | the edited meeting takes the form's fields and parsed participants, and a cancelled one becomes rescheduled; others are untouched |
| Descheduler.CancelledAt | components/Descheduler.tsx:160-164 | only the meeting with the id becomes cancelled |
| Descheduler.CancelIdempotent | components/Descheduler.tsx:160-164 | cancelling twice is cancelling once |
| Descheduler.Deleted | components/Descheduler.tsx:147-151 | exactly the meetings with other ids remain |
| Descheduler.DeletedKeepsOrder | components/Descheduler.tsx:149 | deleting works element by element, so order is kept |
| Descheduler.FindById | components/Descheduler.tsx:154 | the first meeting with the id, or none exactly when no meeting has it |
| Descheduler.Pending | components/Descheduler.tsx:195 | exactly the shown, not cancelled meetings that start after now |
| Descheduler.Upcoming | components/Descheduler.tsx:194-197 | three of those (all when there are at most three), sorted by start, and the earliest: no pending meeting left out starts before one that is shown |
| Descheduler.MeetingBoard.constructor | components/Descheduler.tsx:10-24 | empty lists, no filters, closed empty form |
| Descheduler.MeetingBoard.ApplyFilters | components/Descheduler.tsx:60-77 | shows the filtered meetings |
| Descheduler.MeetingBoard.SetQuery | components/Descheduler.tsx:225 | typing in the search box changes only the query |
| Descheduler.MeetingBoard.SetStatusFilter | components/Descheduler.tsx:233 | a status button changes only the status filter |
| Descheduler.MeetingBoard.Submit | components/Descheduler.tsx:79-117 | a missing title, start or end changes nothing; otherwise the edited meeting is updated or a new scheduled one is appended, and the form is reset |
| Descheduler.MeetingBoard.ResetForm | components/Descheduler.tsx:119-131 | closes and empties the form |
| Descheduler.MeetingBoard.Edit | components/Descheduler.tsx:133-145 | opens the form filled from the meeting |
| Descheduler.MeetingBoard.Reschedule | components/Descheduler.tsx:153-158 | opens the form for the first meeting with the id, and does nothing if there is none |
| Descheduler.MeetingBoard.Delete | components/Descheduler.tsx:147-151 | removes the meeting only when confirmed |
| Descheduler.MeetingBoard.Cancel | components/Descheduler.tsx:160-164 | marks the meeting cancelled |
| FuturePrediction.FirstIndex | components/FuturePrediction.tsx:92 | the first position of a character, or none exactly when it is absent |
| FuturePrediction.LastIndex | components/FuturePrediction.tsx:92 | the last position of a character, or none exactly when it is absent |
| FuturePrediction.ExtractJson | components/FuturePrediction.tsx:92 | a match exists exactly when some "{" precedes some "}"; it runs from the first "{" to the last "}" |
| FuturePrediction.ReadReply | components/FuturePrediction.tsx:89-116 | without a braced span, or when parsing fails, the fallback; otherwise the parsed object |
| FuturePrediction.OrDefault | components/FuturePrediction.tsx:121-125 | a missing or empty field takes the default |
| FuturePrediction.ClampConfidence | components/FuturePrediction.tsx:123 | the confidence is within 0..100: missing or zero becomes 70, in-range values stay, and values out of range are clamped |
| FuturePrediction.Normalised | components/FuturePrediction.tsx:118-129 | the card has the given id and category; a parsed non-empty title, description, timeframe or impact is kept, and a missing or empty one becomes `Future Insights: <category>`, the reply text, "Next quarter" or "medium" (via OrDefault); the confidence is the clamped parsed value (ClampConfidence), in 0..100; parsed recommendations are kept, and missing ones take the three defaults |
| FuturePrediction.FallbackPrediction | components/FuturePrediction.tsx:95-129 | an unparseable reply gives the fixed fallback card carrying the reply text |
| FuturePrediction.ConfidenceShade | components/FuturePrediction.tsx:172-176 | green from 80, yellow from 60, orange below |
| FuturePrediction.Filtered | components/FuturePrediction.tsx:178-180 | "all" shows every card; otherwise exactly the cards of the category |
| FuturePrediction.Deleted | components/FuturePrediction.tsx:157-161 | exactly the cards with other ids remain |
| FuturePrediction.DeletedKeepsOrder | components/FuturePrediction.tsx:159 | deleting works element by element, so order is kept |
| FuturePrediction.GenerateKeepsList | components/FuturePrediction.tsx:131-140 | generation always ends; a failed request keeps the list, and a reply puts the new card first in front of the old list |
| FuturePrediction.PredictionBoard.constructor | components/FuturePrediction.tsx:12-16 | no cards, not generating, category "all", no custom prompt |
| FuturePrediction.PredictionBoard.Generate | components/FuturePrediction.tsx:49-140 | applies the generation specification |
| FuturePrediction.PredictionBoard.CategorySelect | components/FuturePrediction.tsx:142-148 | "Custom" opens the custom form; any other category generates |
| FuturePrediction.PredictionBoard.CustomSubmit | components/FuturePrediction.tsx:150-155 | a blank prompt does nothing; otherwise generates in the "Custom" category |
| FuturePrediction.PredictionBoard.CloseCustomForm | components/FuturePrediction.tsx:338-341 | the close and Cancel buttons hide the custom form and clear the prompt, nothing else changes |
| FuturePrediction.PredictionBoard.SetSelectedCategory | components/FuturePrediction.tsx:226-243 | a category tab changes only the selected category |
| FuturePrediction.PredictionBoard.SetCustomPrompt | components/FuturePrediction.tsx:354 | typing in the custom prompt changes only the prompt |
| FuturePrediction.PredictionBoard.Delete | components/FuturePrediction.tsx:157-161 | removes the card only when confirmed |

## Left out

- Browser I/O is not modelled: localStorage persistence, scrolling, focus and textarea resizing, `alert` and `console`. A `confirm()` answer is a boolean parameter.
- The asynchronous ordering of React state updates is not modelled. Each handler is one atomic step, so the intermediate `isStreaming == true` state is not observable.
- Suggestions are computed in the same step as the reply, although the source applies them later in a detached promise.
- A missing API key is not modelled. A failed request is a failed reply (`None`, or the stream failure flag).
- Model name, temperature and the wording of the suggestion and prediction prompts are not modelled. Replies are parameters, so the prompt text would constrain nothing.
- Ids (`Date.now()`), timestamps and "now" are parameters. Date parsing and the `datetime-local` formatting are parameters too. `getDaysUntilDue`, `formatDate` and the colour helpers other than confidence are not modelled.
- Whitespace (`trim`) and case folding (`toLowerCase`) are ASCII-only. JavaScript's full Unicode behaviour is not modelled.
- `JSON.parse` is an abstract function returning typed fields. Non-number confidence, fractional confidence, non-string titles and non-string recommendation lists are not modelled.
- Chat.ChatApp.SelectFile: a data URL without a comma gives the empty payload, where the source stores `undefined`.
- Turn.Arg: a missing argument prints as "undefined", as template literals do. Non-string argument values are not modelled. A missing arguments object is modelled: a known tool then throws (Turn.Throws).
- Chat.ChatApp.SendMessage: returns the history used to ask for suggestions, not the suggestion prompt itself.
- TaskReminder.Filtered: the sort is proved sorted and a permutation but not stable. `Array.prototype.sort` is stable, and so is the insertion sort here, but no lemma states stability.
- The sample data shipped with the panels is not modelled. When nothing is stored, the source loads sample reminders and meetings (components/TaskReminder.tsx:34-54, components/Descheduler.tsx:36-50); the model starts empty, as the source does when an empty list is stored.
- Handlers are modelled as callable in every state. The UI shows some buttons only conditionally (reschedule and cancel, the disabled generate button while generating).
- The initial-load effect of App.tsx (lines 61-65) is folded into Navigate, because it fires under the same condition, after login or navigation to the chat. It re-creates the same General session.
- `MarkdownRenderer`, `Dashboard`, `LoginScreen` and the JSX layout are not modelled. They only present state.

## Findings

| source | as written | input that shows it | evidently intended | confidence | as-written member | corrected member |
|---|---|---|---|---|---|---|
| App.tsx:86-95 | opening the chat re-creates a General session but leaves `currentMode` as it was | log in as a manager, select Strategist, navigate to the chat: the sidebar highlights Strategist while the session uses the General instruction and tools | opening the chat also resets the selected persona to General, as logout does | not executed | Chat.NavigateDesync | Chat.NavigateInSync |
