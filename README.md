# Virtual advisory board bot: the conversation core in Dafny

The bot is a Telegram assistant. It collects a user's situation and proposes five public
figures as candidate board members. The user picks three of them with inline buttons. The
bot then answers questions in the voice of that board until a demo limit of ten answers is
reached. At that point the chat is closed and, when an administrator is configured, a summary
and the full transcript are sent to them.

This project models the part of the bot that makes decisions:

- the per-chat conversation state machine of `src/bot.js`, which has four stages:
  awaiting the situation, awaiting the selection, active, and demo complete;
- the in-memory session table of `src/sessionStore.js`;
- the prompt pieces and the answer check of `src/responseBuilder.js`;
- the shape check of the persona step in `src/personaGenerator.js`, which the bot relies on.

## Layout

| file | module | contents |
|---|---|---|
| `wrappers.dfy` | `Wrappers` | `Option` and `Result` |
| `text.dfy` | `Text` | JavaScript `trim`, `toLowerCase`, `includes`, `join`, and decimal rendering of integers |
| `domain.dfy` | `Domain` | the entities (stage, persona, log entry, user profile, selection, button); `Outbound`, what is sent to Telegram; `Env`, the outside world |
| `session_store.dfy` | `SessionStore` | `SessionState` (a record's value); the `Session` class (the shared mutable record); the `Store` class (the table); the functions on maps of values that specify the store |
| `response_builder.dfy` | `ResponseBuilder` | the conversation excerpt, the persona briefs, the user prompt, and the check on the model's answer |
| `persona_generator.dfy` | `PersonaGenerator` | acceptance of exactly five candidates |
| `bot_text.dfy` | `BotText`, `ClarificationExamples` | the vagueness heuristic, sentence completion, the keyboard and its payloads, every message text, and worked examples of the heuristic |
| `bot_spec.dfy` | `BotSpec` | what each event does to one chat's session, as functions on values; the session invariant; the lemmas about stages, counting and selection |
| `bot.dfy` | `Bot` | the event handlers as methods that change the shared `Session` objects held in the `Store` |

## How the model is built

- **Sessions.** A session is a mutable object. `getSession` returns the stored object
  itself, and the handlers change its fields step by step. So does `sendMessageAndLog`,
  which fetches the record again by chat id before logging. The model therefore keeps:
  - `Session` as a class with the fields of `defaultSession`;
  - `Store` as a class holding a `map<ChatId, Session>`.
- **Handlers against specifications.** Every handler in `Bot` is a method. It is proved to
  leave the chat's record equal to the session value the matching function of `BotSpec`
  computes, and to send exactly the `Outbound` actions that function lists, in order.
- **Frames.** The top-level handlers may modify only the store and the chat's own record. They
  also state that the table changes at most at the chat's key. So no other chat's record
  changes.
- **Properties.** The properties the bot relies on are lemmas on the `BotSpec` functions. The main
  one is `Inv`, the session invariant: every handler keeps it.
- **Outside world.** Everything the bot asks outside its core is a field of `Env`:
  - language detection and language display names;
  - the persona request together with `JSON.parse`;
  - the board request;
  - the administrator id.

  A failed request is `None`.
- **Presentation and responder.** The dispatcher is stated for any `Presentation` (every
  message text, the keyboard, the transcript, and the vagueness test) and any `Responder`
  (the board call). The bot's own are `BotText.BotPresentation` and
  `BotSpec.BoardResponder(env)`. The wording is modelled in `BotText` and `ResponseBuilder`
  and is proved about there.

Two quirks of the bot's code are kept as written:

- Text sent while the board is being chosen, or after the demo has ended, is still appended
  to the log before the fixed reply (`src/bot.js:236`). See
  `BotSpec.TextLoggedOutsideConversation`.
- At finalisation the log is emptied only when an administrator id is configured
  (`src/bot.js:316`, `src/bot.js:341`). Without one, the log keeps growing. See
  `BotSpec.FinalizeDemoEffects`. In the program as shipped this branch does not run:
  `src/anthropicClient.js:5` calls `assertConfig` when the module is loaded, and that throws
  when `admin_telegram_id` is missing or empty (`src/config.js:17-22`). `src/bot.js` loads the
  client through the persona and response modules. The model keeps the branch, because the
  handler itself does not depend on that check.

## Model

| member | source | states |
|---|---|---|
| SessionStore.Session.constructor | src/sessionStore.js:3-13 | a new record has the chat id, the first stage, Russian, no candidates, no picks, no situation, a zero counter, an empty log and no profile |
| SessionStore.Store.constructor | src/sessionStore.js:1 | the table starts empty |
| SessionStore.AfterGet | src/sessionStore.js:15-20 | after `getSession`, the chat is present with its stored record or, if it was new, the default one; a present chat leaves the table as it was; every other chat keeps its record |
| SessionStore.AfterReset | src/sessionStore.js:22-25 | after `resetSession`, the chat holds the default record whatever it held before; every other chat keeps its record |
| SessionStore.AfterDelete | src/sessionStore.js:27-29 | after `deleteSession`, exactly that key is gone and every other chat keeps its record |
| SessionStore.GetIdempotent | src/sessionStore.js:15-19 | asking twice for the same chat gives the same table and record as asking once |
| SessionStore.DeleteThenGet | src/sessionStore.js:15-18 | after a delete, the next `getSession` recreates the default record, so delete then get equals reset |
| SessionStore.Store.GetSession | src/sessionStore.js:15-20 | returns the stored object itself (a new default object for a new chat, the old object otherwise); the values of the table change as `AfterGet` says |
| SessionStore.Store.ResetSession | src/sessionStore.js:22-25 | a new default object replaces the chat's entry; the values change as `AfterReset` says |
| SessionStore.Store.DeleteSession | src/sessionStore.js:27-29 | only the chat's key is removed; the values change as `AfterDelete` says |
| Text.TrimStart | src/bot.js:119 | drops a prefix made only of JavaScript white space, leaving a suffix that starts with something else |
| Text.TrimEnd | src/bot.js:119 | drops a suffix made only of white space, leaving a prefix that ends with something else |
| Text.TrimShape | src/bot.js:231 | the result of `trim` has no white space at either end and is a contiguous piece of the input; it is empty exactly when the input is all white space |
| Text.TrimIdempotent | src/bot.js:60 | trimming twice is trimming once |
| Text.TrimKeepsNonSpace | src/bot.js:119 | every character that is not white space survives `trim`, at its place in the contiguous piece `trim` keeps |
| Text.LowerCharKeepsSpace | src/bot.js:119 | lower-casing a character neither creates nor removes white space |
| Text.LowerIdempotent | src/bot.js:119 | lower-casing twice is lower-casing once |
| Text.LowerConcat | src/bot.js:119 | lower-casing distributes over concatenation |
| Text.TrimLower | src/bot.js:119 | lower-casing and trimming commute, since lower-casing neither creates nor removes white space |
| Text.MissingCharNotContained | src/bot.js:127 | text lacking one character of a word cannot contain that word |
| Text.NotContainedNearEnd | src/bot.js:127 | a word cannot occur in a text when one of its characters is missing from all but a tail too short to hold the rest of the word |
| Text.JoinSnoc | src/responseBuilder.js:8 | joining one more part appends the separator and that part |
| Text.JoinContainsPart | src/bot.js:77 | every part of a join appears in the joined text |
| Text.NatToString | src/bot.js:204 | the decimal rendering of a count is a non-empty string of digits |
| Text.IntToString | src/bot.js:325 | the decimal rendering of an id: for a non-negative id a string of digits whose decimal value is the id; for a negative one a minus sign followed by digits whose value is the id's magnitude |
| Text.DecimalRoundTrip | src/bot.js:187 | reading back the decimal rendering of a number gives the number |
| BotText.NeedsClarificationCases | src/bot.js:118-137 | stated on the text as typed: text made only of white space is vague; a broad request is vague; otherwise text of 80 or more characters after trimming is specific, and so is text that holds a detail keyword once trimmed and lower-cased, and text with a digit or one of `, . ; : ! ?` anywhere in it; shorter non-blank text with no detail keyword, digit or such punctuation is vague |
| BotText.KeywordNeedsText | src/bot.js:30-34 | no detail keyword is empty, so text holding one is not blank |
| BotText.NormalizeKeepsDigits | src/bot.js:119-128 | trimming and lower-casing keep the trimmed length and neither add nor remove digits, so testing the normalised text for a digit is testing the text as typed |
| BotText.NormalizeKeepsPunctuation | src/bot.js:119-129 | trimming and lower-casing neither add nor remove any of `, . ; : ! ?` |
| BotText.LowerSliceKeepsDigits | src/bot.js:119-128 | lower-casing a slice that holds every digit of a text leaves a digit in the slice exactly when the text has one |
| BotText.LowerSliceKeepsPunctuation | src/bot.js:119-129 | the same for the punctuation the heuristic looks for |
| BotText.NeedsClarificationNormalised | src/bot.js:119 | the heuristic ignores surrounding white space and letter case |
| BotText.EnsureSentence | src/bot.js:58-63 | empty exactly for blank input; otherwise a trimmed text ending in `.`, `!` or `?`, which is the trimmed input itself exactly when that already ends in one of them, and the trimmed input with a full stop added otherwise |
| BotText.CloseSentence | src/bot.js:61-62 | on trimmed text: empty exactly for empty text; otherwise the text itself when it already ends in `.`, `!` or `?`, and the text with a full stop added when it does not |
| BotText.EnsureSentenceIdempotent | src/bot.js:58-63 | completing a sentence twice is completing it once |
| BotText.DigitRun | src/bot.js:181 | the longest run of digits at the start of a payload |
| BotText.SelectMatch | src/bot.js:181 | a match of `select_` followed by digits yields a non-empty string of digits |
| BotText.SelectMatchLeftmost | src/bot.js:181-187 | the payload matches exactly when `select_` followed by a digit occurs in it; the match is then the run of digits after the leftmost such occurrence |
| BotText.PayloadRoundTrip | src/bot.js:87 | the payload of button `i` is parsed back to `i` by the callback handler |
| BotText.SelectionKeyboard | src/bot.js:82-91 | one button per candidate |
| BotText.KeyboardButton | src/bot.js:82-91 | button `i` names candidate `i`, carries a payload that parses to `i`, and is marked ✅ exactly when `i` is picked and ➕ exactly when it is not |
| BotText.JoinPresent | src/bot.js:73 | joining the non-empty of two parts by a space: empty exactly when both are empty; exactly the present part when only one is present; the two parts with one space between them when both are |
| BotText.PersonaListItem | src/bot.js:70-76 | each entry is its 1-based number and the persona's name, and only that exactly when the reason and the headline are both blank; otherwise ` - ` follows, then the reason as a completed sentence alone, the trimmed headline alone, or the sentence, a space and the headline |
| BotText.ItemShape | src/bot.js:73-76 | an entry is its head alone exactly when it has no details; otherwise the head, ` - `, and the reason sentence, the headline, or both with a space between them |
| BotText.ListMessage | src/bot.js:79 | the message opens with the intro and a blank line |
| BotText.ListMessageContains | src/bot.js:77-79 | every entry appears in the message |
| BotText.ListMessageSnoc | src/bot.js:77-79 | the entries appear in order: a single entry follows the intro and a blank line, and each further entry follows the message so far after a blank line |
| BotText.PersonaListed | src/bot.js:65-80 | the persona list opens with the intro in the user's language, and every candidate's entry appears in it |
| BotText.AdminUserLine | src/bot.js:318 | the user line gives the present first and last names, joined by one space, and `Без имени` when both are empty |
| BotText.AdminHandleLine | src/bot.js:319 | the handle line is `Username: —` exactly when there is no username, and `@` with the username otherwise |
| BotText.AdminIdLine | src/bot.js:325 | the id line is `ID:` and the decimal id when a profile was recorded, and `ID: undefined` exactly when none was |
| BotText.AdminSummaryLines | src/bot.js:318-327 | the administrator's summary has five lines: the closing notice; the user's present names joined by a space, or `Без имени` when there are none; `Username: —` exactly when there is no username, otherwise `@` and the username; the decimal id, or `ID: undefined` exactly when there is no profile; the number of answers given |
| BotText.StartCommandForms | src/bot.js:179 | `/start`, alone or followed by a space or a line break and a payload, starts the bot; a longer command such as `/started` or `/start_now` does not |
| BotText.TranscriptSnoc | src/bot.js:331-333 | the transcript grows by exactly one line per new log entry, numbered after the others and separated by a blank line |
| ClarificationExamples.EmptyIsVague | src/bot.js:120 | an empty question is vague |
| ClarificationExamples.PleaIsVague | src/bot.js:23 | a bare "помоги" is vague |
| ClarificationExamples.WhatToDoIsVague | src/bot.js:20 | "Что делать?" is vague despite its punctuation, because it lower-cases to a broad pattern |
| ClarificationExamples.FiguresQuestionNotBroad | src/bot.js:18-28 | a question about hours and coaching matches no broad pattern |
| ClarificationExamples.FiguresQuestionIsSpecific | src/bot.js:126-136 | a short question with a digit is specific enough |
| ClarificationExamples.MarksExcludeBroad | src/bot.js:18-28 | text without `о`, `d`, `p` or `l`, followed by `ly`, matches none of the broad patterns |
| ClarificationExamples.RequestIsSpecific | src/bot.js:118-137 | "I want to reach €3k/month from AI coaching with 10 hours weekly" is specific enough: no broad pattern, and a digit |
| ResponseBuilder.ExcerptLines | src/responseBuilder.js:6-8 | exactly min(6, length of log) lines, one per entry of the log's tail in original order, each prefixed `Пользователь` for the user and `Совет` otherwise |
| ResponseBuilder.BuildConversationExcerpt | src/responseBuilder.js:6-9 | the excerpt is empty exactly when the log is empty |
| ResponseBuilder.ExcerptEndsWithNewest | src/responseBuilder.js:7-8 | the newest entry is always the excerpt's last line |
| ResponseBuilder.ExcerptIgnoresOlderEntries | src/responseBuilder.js:7 | entries older than the last six do not affect the excerpt |
| ResponseBuilder.BriefLines | src/responseBuilder.js:20-26 | a persona brief has five lines: the 1-based number and name, the headline, the reason, the signature style, and the principles joined by `; `, each under its label |
| ResponseBuilder.BriefQuotesPrinciples | src/responseBuilder.js:25 | every one of a member's principles appears in its brief |
| ResponseBuilder.PersonaBriefsSnoc | src/responseBuilder.js:19-27 | the briefs are in board order, separated by a blank line; one more member adds exactly its brief, numbered after the others |
| ResponseBuilder.PlaceholderExactlyForEmptyLog | src/responseBuilder.js:62 | the prompt uses the first-question placeholder exactly when the log is empty, and otherwise the recent-messages header |
| ResponseBuilder.ExtractAnswer | src/responseBuilder.js:78-83 | succeeds exactly when a first content block exists and has type `text`; then the answer is its text trimmed |
| ResponseBuilder.GenerateBoardResponse | src/responseBuilder.js:11-84 | for the request built from the situation, the board, the log, the question and the language's name, the result is a success exactly when the request returns a response whose first content block is a text block; the answer is then that block's text, trimmed |
| PersonaGenerator.GeneratePersonaOptions | src/personaGenerator.js:50-58 | the parsed array is accepted exactly when it has five entries, and is then returned unchanged |
| BotSpec.AddPick | src/bot.js:192-198 | a pick is added once, at the end; the picks never exceed three and stay distinct; below three, the index is then among them |
| BotSpec.LookupInv | src/sessionStore.js:3-20 | a new chat's default record satisfies the session invariant, so every record the table hands out does when every stored one does |
| BotSpec.StartResets | src/bot.js:161-177 | `/start` leaves a fresh record at the first stage, in Russian, with the sender's profile and only the greeting in the log; it satisfies the invariant |
| BotSpec.FinalizeDemoEffects | src/bot.js:308-342 | the stage closes; profile, counter, board and language are kept; the farewell is sent and logged; the log is emptied exactly when an administrator is configured, who then gets the summary and the transcript with the farewell in it |
| BotSpec.AnswerQuestionCounts | src/bot.js:93-116 | on an active board the counter goes up by one exactly when the board answers; the demo closes exactly when that answer is the tenth, and then the answer goes out and is followed by exactly what `finalizeDemo` does to the counted record; a failure sends the apology and counts nothing; the invariant holds |
| BotSpec.ClarificationDoesNotCount | src/bot.js:295-303 | a vague question gets the clarification prompt in the question's language; only the language and the log change |
| BotSpec.SituationDescribed | src/bot.js:261-293 | the situation and its language are stored in every case; the chat moves to selection with the candidates exactly when five arrive, and stays at the first stage otherwise; the analysing notice goes out first, followed by the list with its keyboard on success or by the failure notice otherwise, and nothing else |
| BotSpec.OnTextKeepsInv | src/bot.js:223-259 | every text event keeps the session invariant |
| BotSpec.OnTextStage | src/bot.js:223-259 | apart from a start command, text never moves a chat backwards; it leaves the first stage only when candidates arrive; it never leaves selection; an active chat closes only at the limit; a closed chat stays closed |
| BotSpec.OnTextCounts | src/bot.js:223-259 | the counter moves only for a non-vague question in an active chat that the board answers, and then by one |
| BotSpec.BlankTextIgnored | src/bot.js:228-234 | blank text only records the sender's profile; nothing is logged or sent |
| BotSpec.StageReply | src/bot.js:242-258 | while selecting or after the demo, non-blank text gets the stage's fixed reply |
| BotSpec.TextLoggedOutsideConversation | src/bot.js:236-258 | while selecting or after the demo, text is logged as the user's and then the fixed reply follows; nothing else changes |
| BotSpec.RejectedSelectionUnchanged | src/bot.js:181-190 | a callback outside selection, or naming no candidate, leaves the session unchanged and only answers the callback |
| BotSpec.PickAcknowledged | src/bot.js:192-207 | an accepted pick is recorded once, at most three are kept, the keyboard is redrawn with them, and the acknowledgement reports 3 minus the number picked; below three nothing else changes |
| BotSpec.FormBoardEffects | src/bot.js:209-219 | forming the board makes the chat active with the resolved board and the situation's detected language (or the chat's own if none is detected), sends the readiness notice and the first answer (or the apology), and counts that answer |
| BotSpec.ThirdPickThen | src/bot.js:192-221 | the callback of a third distinct pick is the two acknowledgements followed by board formation |
| BotSpec.ThirdPickFormsBoard | src/bot.js:209-219 | the third distinct pick forms the board from the three candidates in pick order, after acknowledging that no slots are left |
| BotSpec.OnSelectKeepsInv | src/bot.js:181-221 | every selection callback keeps the invariant, and the only stage change it makes is from selection to active |
| Bot.PushLog | src/bot.js:47-49 | appends one entry to the record's log |
| Bot.EnsureUserProfile | src/bot.js:36-45 | records the first sender seen, with absent names as empty strings, and never overwrites a profile |
| Bot.SendMessageAndLog | src/bot.js:51-56 | sends the reply, then logs it as the bot's in the record stored under the chat id |
| Bot.HandleStart | src/bot.js:161-177 | a new record replaces the chat's and ends as `BotSpec.HandleStart` says; only that key of the table changes |
| Bot.FinalizeDemo | src/bot.js:308-342 | changes the record and sends as `BotSpec.FinalizeDemo` says |
| Bot.AnswerQuestion | src/bot.js:93-116 | changes the record and sends as `BotSpec.AnswerQuestion` says |
| Bot.HandleSituationDescription | src/bot.js:261-293 | changes the record and sends as `BotSpec.HandleSituationDescription` says |
| Bot.HandleActiveQuestion | src/bot.js:295-306 | changes the record and sends as `BotSpec.HandleActiveQuestion` says |
| Bot.OnMessage | src/bot.js:228-258 | changes the record and sends as `BotSpec.OnMessage` says |
| Bot.FormBoard | src/bot.js:209-220 | changes the record and sends as `BotSpec.FormBoard` says |
| Bot.Select | src/bot.js:182-220 | changes the record and sends as `BotSpec.OnSelect` says |
| Bot.FetchAndHandleMessage | src/bot.js:228-258 | fetches the chat's record (the default one for a new chat) and leaves it as `BotSpec.OnMessage` says; only that key of the table changes |
| Bot.OnText | src/bot.js:223-259 | the chat's record becomes what `BotSpec.OnText` says and keeps the invariant; only that key of the table changes |
| Bot.OnSelect | src/bot.js:181-221 | a payload without `select_` and digits changes nothing; otherwise the chat's record becomes what `BotSpec.OnSelect` says for the parsed index and keeps the invariant; only that key of the table changes |

## Left out

- The Telegram transport: replies, callback answers, keyboard edits and the administrator
  sends are recorded as `Outbound` values. Transport errors, and what the surrounding
  `try`/`catch` blocks would do with them, are not modelled.
- The diagnostic `console.error` calls in the catch blocks of `answerQuestion` and
  `handleSituationDescription` (`src/bot.js:110`, `src/bot.js:285`): they write to the
  process log only and change no session or reply.
- The name of the transcript file, which contains `Date.now()`: only the document's content is
  modelled.
- Telegraf's routing. `bot.start` (`src/bot.js:179`) takes any text that opens with the
  `/start` command, so the text handler's own check for the bare `/start` never decides
  anything. The model takes a command to end at the first character that cannot continue a
  command name. A callback reaches the selection handler when its payload contains `select_`
  followed by digits.
- BotText.IsStartCommand: `/start@name`, the command addressed to the bot by its username, is
  treated as ordinary text, because the bot's username is not part of the model.
- The 90-second handler timeout, and interleaving of two events for the same chat across
  `await`: each event is atomic.
- The two language-model requests and `JSON.parse`: they are oracles in `Env`. A persona
  record's fields are taken to be strings.
- The wording of the prompts: the format lines (`src/responseBuilder.js:29-37`), the system
  message (`src/responseBuilder.js:47-52`), the persona-generation prompt, and the model
  parameters. Only the language line of the format block is modelled.
- Language detection and display names (`src/language.js`): they are oracles in `Env`.
- Configuration, start-up and the health server (`src/config.js`, `src/index.js`,
  `src/anthropicClient.js`), and the separate Python web application.
- Exact JavaScript strings:
  - text is a sequence of code points, not of UTF-16 units, so the 80-character limit
    counts code points;
  - lower-casing covers the ASCII capitals and the basic Russian Cyrillic capitals
    (U+0400 to U+042F) only;
  - the broad patterns are matched as substrings, and the first one is written as its two
    alternatives.
- `Number` precision: a very long run of digits in a payload is read exactly, whereas
  JavaScript would round it.
- `DEMO_LIMIT` is fixed at its default of 10, since configuration is outside the model.
- Bot.SendMessageAndLog: reads the record stored under the chat id directly instead of
  calling `SessionStore.Store.GetSession`. It requires the chat to be present, which every
  caller ensures. `GetSession` on a present chat returns that record and leaves the table
  unchanged.
- BotSpec.BoardOf: gives no members while the selection still holds indexes. The board is
  asked only once the members are resolved, so this case is never used.
- Bot.OnText: the invariant is stated for the chat's own record. For the whole table, the
  frame (only that record may change) carries it over; no table-wide predicate is stated.
- BotSpec.ThirdPickFormsBoard: states the third pick through `BotSpec.FormBoard`. What board
  formation does is stated separately by `BotSpec.FormBoardEffects`.
