/**
 * What each event does to one chat's session, as a function of the session's value:
 * the conversation state machine of the dispatcher. The imperative handlers in `Bot`
 * are proved to change the shared session record exactly as these functions say; the
 * lemmas here state the properties the bot relies on.
 *
 * An `Effect` is the session value after the event and what was sent, in order.
 */
module BotSpec {
  import opened Wrappers
  import opened Text
  import opened Domain
  import opened SessionStore
  import opened BotText
  import opened ResponseBuilder
  import opened PersonaGenerator

  /** `DEMO_LIMIT`: answers before the demo is finalised (the configured value, 10). */
  const DemoLimit: nat := 10

  /** How many personas make a board. */
  const BoardSize: nat := 3

  datatype Effect = Effect(session: SessionState, out: seq<Outbound>)

  /** The board's answer to a question: question, target language, board members, situation
      and conversation so far give the answer or a failure. The bot's is
      `GenerateBoardResponse` over its API oracle; the dispatcher holds for any. */
  type Responder = (string, string, seq<Persona>, string, seq<LogEntry>) -> Result<string, string>

  /** The bot's own responder. */
  function BoardResponder(env: Env): Responder {
    (question, language, personas, situation, log) =>
      GenerateBoardResponse(env, question, language, personas, situation, log)
  }

  /** Prefixes what was sent before to an effect. */
  function Then(first: seq<Outbound>, e: Effect): Effect {
    Effect(e.session, first + e.out)
  }

  /** `pushLog(session, role, text)` */
  function PushLog(s: SessionState, role: Role, text: string): SessionState {
    s.(conversationLog := s.conversationLog + [LogEntry(role, text)])
  }

  /** `sendMessageAndLog(ctx, text, extra)`: the reply goes out, then is logged as the bot's. */
  function SendAndLog(s: SessionState, text: string, markup: Option<seq<Button>>): Effect {
    Effect(PushLog(s, Bot, text), [Reply(text, markup)])
  }

  function OrEmpty(o: Option<string>): string {
    if o.Some? then o.value else ""
  }

  /** `ensureUserProfile(session, from)`: the first sender seen is recorded, once. */
  function EnsureUserProfile(s: SessionState, from: Sender): SessionState {
    if s.userProfile.Some? then s
    else s.(userProfile := Some(UserProfile(from.id, OrEmpty(from.firstName), OrEmpty(from.lastName), OrEmpty(from.username))))
  }

  /** The board members of a selection; indexes are not members. */
  function BoardOf(sel: Selection): seq<Persona> {
    if sel.Board? then sel.members else []
  }

  /** `handleStart`: a fresh session with the sender's profile, then the greeting. */
  function HandleStart(chatId: ChatId, from: Sender, w: Presentation): Effect {
    var s := EnsureUserProfile(DefaultSession(chatId), from).(stage := AwaitingSituation, language := "ru");
    SendAndLog(s, w.greeting, None)
  }

  /** `finalizeDemo`: the stage closes and the farewell is sent; with an administrator
      configured, the summary and the transcript (farewell included) go to them and the log
      is cleared. */
  function FinalizeDemo(s: SessionState, env: Env, w: Presentation): Effect {
    var farewell := SendAndLog(s.(stage := DemoComplete), w.farewell(s.language), None);
    var closed := farewell.session;
    if env.adminTelegramId == "" then farewell
    else
      Effect(closed.(conversationLog := []),
        farewell.out + [
          AdminMessage(env.adminTelegramId, w.adminSummary(closed.userProfile, closed.messagePairs)),
          AdminDocument(env.adminTelegramId, w.transcript(closed.conversationLog))])
  }

  /** The board's answer to a question, asked with the session as it stands. */
  function BoardAnswer(s: SessionState, question: string, language: string, ask: Responder): Result<string, string> {
    ask(question, language, BoardOf(s.selectedPersonas), s.situationDescription, s.conversationLog)
  }

  /** `answerQuestion`: on an answer, send it, count it, and finalise at the limit; on a
      failure, send the apology and count nothing. */
  function AnswerQuestion(s: SessionState, question: string, language: string, env: Env, w: Presentation, ask: Responder): Effect {
    match BoardAnswer(s, question, language, ask)
    case Failure(_) => SendAndLog(s, w.answerFailed(language), None)
    case Success(answer) =>
      var sent := SendAndLog(s, answer, None);
      var counted := sent.session.(messagePairs := sent.session.messagePairs + 1);
      if counted.messagePairs >= DemoLimit then Then(sent.out, FinalizeDemo(counted, env, w))
      else Effect(counted, sent.out)
  }

  /** `handleSituationDescription`: store the situation and its language, announce the
      analysis, and on five candidates move to selection with the list and the keyboard. */
  function HandleSituationDescription(s: SessionState, text: string, env: Env, w: Presentation): Effect {
    var s1 := s.(situationDescription := text, language := env.detectLanguage(text));
    var notice := SendAndLog(s1, w.analyzing(s1.language), None);
    match GeneratePersonaOptions(env, text, s1.language)
    case None => Then(notice.out, SendAndLog(notice.session, w.personasFailed(s1.language), None))
    case Some(personas) =>
      var s2 := notice.session.(personaCandidates := personas, stage := AwaitingSelection);
      Then(notice.out, SendAndLog(s2, w.personaList(personas, s2.language), Some(w.keyboard(personas, []))))
  }

  /** `handleActiveQuestion`: re-detect the language; a vague question gets the
      clarification prompt, any other goes to the board. */
  function HandleActiveQuestion(s: SessionState, text: string, env: Env, w: Presentation, ask: Responder): Effect {
    var language := env.detectLanguage(text);
    var s1 := s.(language := language);
    if w.vague(text) then SendAndLog(s1, w.clarification(language), None)
    else AnswerQuestion(s1, text, language, env, w, ask)
  }

  /** A text message. `bot.start` is registered first and takes every start command (the
      bare `/start` included, which the `text` handler would also send to `handleStart`);
      any other text goes to the `text` handler. `s` is the chat's session (the default one
      if the chat is new). */
  function OnText(chatId: ChatId, s: SessionState, from: Sender, raw: string, env: Env, w: Presentation, ask: Responder): Effect {
    if IsStartCommand(raw) then HandleStart(chatId, from, w)
    else OnMessage(s, from, raw, env, w, ask)
  }

  /** The `text` handler for any text that is not a start command: record the sender, ignore blank text,
      log the rest as the user's and dispatch on the stage. */
  function OnMessage(s: SessionState, from: Sender, raw: string, env: Env, w: Presentation, ask: Responder): Effect {
    var s1 := EnsureUserProfile(s, from);
    var text := Trim(raw);
    if text == "" then Effect(s1, [])
    else
      var s2 := PushLog(s1, User, text);
      match s2.stage
      case AwaitingSituation => HandleSituationDescription(s2, text, env, w)
      case AwaitingSelection => SendAndLog(s2, w.selectionReminder(s2.language), None)
      case Active => HandleActiveQuestion(s2, text, env, w, ask)
      case DemoComplete => SendAndLog(s2, w.demoOver(s2.language), None)
  }

  predicate Distinct(xs: seq<nat>) {
    forall i, j :: 0 <= i < j < |xs| ==> xs[i] != xs[j]
  }

  /** The picks after choosing `index`: added once, at the end, and never more than three. */
  function AddPick(picked: seq<nat>, index: nat): (r: seq<nat>)
    ensures |r| <= BoardSize
    ensures Distinct(picked) ==> Distinct(r)
    ensures |picked| < BoardSize ==> index in r && (index in picked ==> r == picked) && (index !in picked ==> r == picked + [index])
    ensures forall k :: 0 <= k < |r| ==> r[k] in picked || r[k] == index
  {
    var pushed := if index in picked then picked else picked + [index];
    if |pushed| > BoardSize then pushed[..BoardSize] else pushed
  }

  /** `selectedPersonas.map(i => personaCandidates[i])` */
  function Resolve(candidates: seq<Persona>, picked: seq<nat>): (r: seq<Persona>)
    requires forall k :: 0 <= k < |picked| ==> picked[k] < |candidates|
    ensures |r| == |picked| && forall k :: 0 <= k < |picked| ==> r[k] == candidates[picked[k]]
  {
    seq(|picked|, k requires 0 <= k < |picked| => candidates[picked[k]])
  }

  /** What holds of every session the bot can reach: picks are distinct valid indexes below
      three while selecting; a board of three afterwards; no answers counted before the
      board exists; the counter below the limit while active and at it once complete. */
  predicate Inv(s: SessionState) {
    && (s.stage != AwaitingSituation ==> s.userProfile.Some? && |s.personaCandidates| == PersonaCount)
    && (s.stage == AwaitingSituation || s.stage == AwaitingSelection ==> s.messagePairs == 0)
    && match s.stage
       case AwaitingSituation => s.selectedPersonas == Indexes([])
       case AwaitingSelection =>
         && s.selectedPersonas.Indexes?
         && |s.selectedPersonas.picked| < BoardSize
         && Distinct(s.selectedPersonas.picked)
         && (forall k :: 0 <= k < |s.selectedPersonas.picked| ==> s.selectedPersonas.picked[k] < |s.personaCandidates|)
       case Active =>
         s.selectedPersonas.Board? && |s.selectedPersonas.members| == BoardSize && s.messagePairs < DemoLimit
       case DemoComplete =>
         s.selectedPersonas.Board? && |s.selectedPersonas.members| == BoardSize && s.messagePairs == DemoLimit
  }

  /** A new chat's record satisfies the invariant, so every record the store hands out does
      when every stored one does. */
  lemma LookupInv(m: map<ChatId, SessionState>, chatId: ChatId)
    requires forall c :: c in m ==> Inv(m[c])
    ensures Inv(DefaultSession(chatId))
    ensures Inv(Lookup(m, chatId))
  {
  }

  /** What the selection callback reads of a record: while selecting, the picks are
      candidate indexes. */
  predicate CanSelect(s: SessionState) {
    s.stage == AwaitingSelection ==>
      && s.selectedPersonas.Indexes?
      && forall k :: 0 <= k < |s.selectedPersonas.picked| ==> s.selectedPersonas.picked[k] < |s.personaCandidates|
  }

  /** The third pick: the picks become the board, the chat becomes active, the readiness
      notice goes out and the situation is answered as the first question. */
  function FormBoard(s: SessionState, env: Env, w: Presentation, ask: Responder): Effect
    requires s.selectedPersonas.Indexes?
    requires forall k :: 0 <= k < |s.selectedPersonas.picked| ==> s.selectedPersonas.picked[k] < |s.personaCandidates|
  {
    var s2 := s.(stage := Active, selectedPersonas := Board(Resolve(s.personaCandidates, s.selectedPersonas.picked)));
    var ready := SendAndLog(s2, w.boardReady(s2.language), None);
    var detected := env.detectLanguage(ready.session.situationDescription);
    var language := if detected != "" then detected else ready.session.language;
    var s3 := ready.session.(language := language);
    Then(ready.out, AnswerQuestion(s3, s3.situationDescription, language, env, w, ask))
  }

  /** The selection callback for candidate `index` (the payload already parsed). */
  function OnSelect(s: SessionState, index: nat, env: Env, w: Presentation, ask: Responder): Effect
    requires CanSelect(s)
  {
    if s.stage != AwaitingSelection then Effect(s, [AnswerCallback(w.selectionUnavailable)])
    else if index >= |s.personaCandidates| then Effect(s, [AnswerCallback(w.invalidChoice)])
    else
      var picked := AddPick(s.selectedPersonas.picked, index);
      var s1 := s.(selectedPersonas := Indexes(picked));
      var acks := [EditKeyboard(w.keyboard(s.personaCandidates, picked)),
                   AnswerCallback(w.slotsLeft(s.language, BoardSize - |picked|))];
      if |picked| == BoardSize then Then(acks, FormBoard(s1, env, w, ask))
      else Effect(s1, acks)
  }

  /** The order of the stages; `/start` is the only way back. */
  function Rank(stage: Stage): nat {
    match stage
    case AwaitingSituation => 0
    case AwaitingSelection => 1
    case Active => 2
    case DemoComplete => 3
  }


  // ---------------------------------------------------------------------------
  // Start and the demo limit

  /** `handleStart`: whatever the chat did before, it starts over at the first stage with the
      sender's profile and only the greeting in its log. */
  lemma StartResets(chatId: ChatId, from: Sender, w: Presentation)
    ensures var e := HandleStart(chatId, from, w);
      && Inv(e.session)
      && e.session.stage == AwaitingSituation
      && e.session.chatId == chatId && e.session.language == "ru"
      && e.session.messagePairs == 0 && e.session.personaCandidates == []
      && e.session.selectedPersonas == Indexes([]) && e.session.situationDescription == ""
      && e.session.userProfile == Some(UserProfile(from.id, OrEmpty(from.firstName), OrEmpty(from.lastName), OrEmpty(from.username)))
      && e.session.conversationLog == [LogEntry(Bot, w.greeting)]
      && e.out == [Reply(w.greeting, None)]
  {
  }

  /** `finalizeDemo`: the stage closes, the profile and the counter are kept, the farewell is
      sent and logged, and the log is emptied exactly when an administrator is configured,
      who then gets the summary and the whole transcript, farewell included. */
  lemma FinalizeDemoEffects(s: SessionState, env: Env, w: Presentation)
    ensures var e := FinalizeDemo(s, env, w);
      var farewell := w.farewell(s.language);
      var log := s.conversationLog + [LogEntry(Bot, farewell)];
      && e.session.stage == DemoComplete
      && e.session.userProfile == s.userProfile
      && e.session.messagePairs == s.messagePairs
      && e.session.selectedPersonas == s.selectedPersonas
      && e.session.personaCandidates == s.personaCandidates
      && e.session.language == s.language
      && (e.session.conversationLog == [] <==> env.adminTelegramId != "")
      && (env.adminTelegramId == "" ==> e.session.conversationLog == log && e.out == [Reply(farewell, None)])
      && (env.adminTelegramId != "" ==>
            e.out == [Reply(farewell, None),
                      AdminMessage(env.adminTelegramId, w.adminSummary(s.userProfile, s.messagePairs)),
                      AdminDocument(env.adminTelegramId, w.transcript(log))])
  {
  }

  /** `answerQuestion` on an active board: the counter goes up by one exactly when the board
      answers, and the demo closes exactly when that answer reaches the limit: the answer goes
      out and `finalizeDemo` runs on the counted record. */
  lemma AnswerQuestionCounts(s: SessionState, question: string, language: string, env: Env, w: Presentation, ask: Responder)
    requires Inv(s) && s.stage == Active
    ensures var e := AnswerQuestion(s, question, language, env, w, ask);
      var answer := BoardAnswer(s, question, language, ask);
      && Inv(e.session)
      && e.session.messagePairs == s.messagePairs + (if answer.Success? then 1 else 0)
      && (e.session.stage == DemoComplete <==> answer.Success? && s.messagePairs + 1 == DemoLimit)
      && (e.session.stage != DemoComplete ==> e.session.stage == Active)
      && e.session.userProfile == s.userProfile
      && e.session.selectedPersonas == s.selectedPersonas
      && e.out[0] == Reply(if answer.Success? then answer.value else w.answerFailed(language), None)
      && (answer.Success? && s.messagePairs + 1 == DemoLimit ==>
            e == Then([Reply(answer.value, None)],
                      FinalizeDemo(PushLog(s, Bot, answer.value).(messagePairs := DemoLimit), env, w)))
      && (s.messagePairs + 1 < DemoLimit ==>
            && |e.out| == 1
            && e.session.conversationLog == s.conversationLog + [LogEntry(Bot, e.out[0].text)]
            && e.session == s.(messagePairs := e.session.messagePairs, conversationLog := e.session.conversationLog))
  {
    match BoardAnswer(s, question, language, ask)
    case Failure(_) =>
    case Success(answer) =>
      var counted := PushLog(s, Bot, answer).(messagePairs := s.messagePairs + 1);
      if counted.messagePairs >= DemoLimit {
        FinalizeDemoEffects(counted, env, w);
      }
  }

  /** `handleActiveQuestion`: a vague question gets the clarification prompt in its own
      language and counts nothing. */
  lemma ClarificationDoesNotCount(s: SessionState, text: string, env: Env, w: Presentation, ask: Responder)
    requires w.vague(text)
    ensures var e := HandleActiveQuestion(s, text, env, w, ask);
      var language := env.detectLanguage(text);
      && e.session == s.(language := language,
                         conversationLog := s.conversationLog + [LogEntry(Bot, w.clarification(language))])
      && e.out == [Reply(w.clarification(language), None)]
  {
  }

  // ---------------------------------------------------------------------------
  // The text handler

  /** `handleSituationDescription`: the situation is stored whatever happens; the chat moves
      to selection exactly when five candidates arrive. */
  lemma SituationDescribed(s: SessionState, text: string, env: Env, w: Presentation)
    requires Inv(s) && s.stage == AwaitingSituation && s.userProfile.Some?
    ensures var e := HandleSituationDescription(s, text, env, w);
      var candidates := GeneratePersonaOptions(env, text, env.detectLanguage(text));
      && Inv(e.session)
      && e.session.situationDescription == text
      && e.session.language == env.detectLanguage(text)
      && e.out[0] == Reply(w.analyzing(env.detectLanguage(text)), None)
      && (candidates.Some? ==> e.session.stage == AwaitingSelection && e.session.personaCandidates == candidates.value
                               && e.out == [Reply(w.analyzing(env.detectLanguage(text)), None),
                                            Reply(w.personaList(candidates.value, env.detectLanguage(text)),
                                                  Some(w.keyboard(candidates.value, [])))])
      && (candidates.None? ==> e.session.stage == AwaitingSituation && e.session.personaCandidates == s.personaCandidates
                               && e.out == [Reply(w.analyzing(env.detectLanguage(text)), None),
                                            Reply(w.personasFailed(env.detectLanguage(text)), None)])
  {
  }

  /** Every event of the text handler keeps the invariant. */
  lemma {:induction false} OnTextKeepsInv(chatId: ChatId, s: SessionState, from: Sender, raw: string, env: Env, w: Presentation, ask: Responder)
    requires Inv(s)
    ensures Inv(OnText(chatId, s, from, raw, env, w, ask).session)
  {
    if IsStartCommand(raw) {
      StartResets(chatId, from, w);
    } else {
      var text := Trim(raw);
      if text != "" {
        var s2 := PushLog(EnsureUserProfile(s, from), User, text);
        match s2.stage
        case AwaitingSituation => SituationDescribed(s2, text, env, w);
        case AwaitingSelection =>
        case Active =>
          if !w.vague(text) {
            AnswerQuestionCounts(s2.(language := env.detectLanguage(text)), text, env.detectLanguage(text), env, w, ask);
          }
        case DemoComplete =>
      }
    }
  }

  /** Apart from a start command, text never moves a chat backwards: the first stage is left only
      when five candidates arrive, the selection stage is not left by text at all, an active
      chat closes only on its last answer, and a closed one stays closed. */
  lemma {:induction false} OnTextStage(chatId: ChatId, s: SessionState, from: Sender, raw: string, env: Env, w: Presentation, ask: Responder)
    requires Inv(s) && !IsStartCommand(raw)
    ensures var e := OnText(chatId, s, from, raw, env, w, ask);
      var text := Trim(raw);
      && Rank(s.stage) <= Rank(e.session.stage)
      && (s.stage == AwaitingSituation ==>
            (e.session.stage == AwaitingSelection <==>
               text != "" && GeneratePersonaOptions(env, text, env.detectLanguage(text)).Some?)
            && (e.session.stage != AwaitingSelection ==> e.session.stage == AwaitingSituation))
      && (s.stage == AwaitingSelection ==> e.session.stage == AwaitingSelection)
      && (s.stage == Active && e.session.stage != Active ==> e.session.stage == DemoComplete && e.session.messagePairs == DemoLimit)
      && (s.stage == DemoComplete ==> e.session.stage == DemoComplete)
  {
    var text := Trim(raw);
    if text != "" {
      var s2 := PushLog(EnsureUserProfile(s, from), User, text);
      match s2.stage
      case AwaitingSituation => SituationDescribed(s2, text, env, w);
      case AwaitingSelection =>
      case Active =>
        if !w.vague(text) {
          AnswerQuestionCounts(s2.(language := env.detectLanguage(text)), text, env.detectLanguage(text), env, w, ask);
        }
      case DemoComplete =>
    }
  }

  /** The counter moves only in an active chat, by one, when a precise question gets an
      answer from the board; a vague question, a failed answer and every other stage leave it. */
  lemma {:induction false} OnTextCounts(chatId: ChatId, s: SessionState, from: Sender, raw: string, env: Env, w: Presentation, ask: Responder)
    requires Inv(s) && !IsStartCommand(raw)
    ensures var e := OnText(chatId, s, from, raw, env, w, ask);
      var text := Trim(raw);
      var asked := PushLog(EnsureUserProfile(s, from), User, text).(language := env.detectLanguage(text));
      e.session.messagePairs ==
        s.messagePairs + (if s.stage == Active && text != "" && !w.vague(text)
                             && BoardAnswer(asked, text, env.detectLanguage(text), ask).Success? then 1 else 0)
  {
    var text := Trim(raw);
    if text != "" && s.stage == Active {
      var s2 := PushLog(EnsureUserProfile(s, from), User, text);
      if !w.vague(text) {
        AnswerQuestionCounts(s2.(language := env.detectLanguage(text)), text, env.detectLanguage(text), env, w, ask);
      } else {
        ClarificationDoesNotCount(s2, text, env, w, ask);
      }
    } else if text != "" && s.stage == AwaitingSituation {
      SituationDescribed(PushLog(EnsureUserProfile(s, from), User, text), text, env, w);
    }
  }

  /** Blank text only records the sender's profile, once; nothing is logged or sent. */
  lemma BlankTextIgnored(chatId: ChatId, s: SessionState, from: Sender, raw: string, env: Env, w: Presentation, ask: Responder)
    requires !IsStartCommand(raw) && Trim(raw) == ""
    ensures var e := OnText(chatId, s, from, raw, env, w, ask);
      && e.out == []
      && e.session.userProfile.Some?
      && (s.userProfile.Some? ==> e.session == s)
      && e.session == s.(userProfile := e.session.userProfile)
  {
  }

  /** Outside the conversation stages, non-blank text gets the stage's fixed reply. */
  lemma StageReply(s: SessionState, from: Sender, raw: string, env: Env, w: Presentation, ask: Responder)
    requires Trim(raw) != ""
    requires s.stage == AwaitingSelection || s.stage == DemoComplete
    ensures OnMessage(s, from, raw, env, w, ask) ==
      SendAndLog(PushLog(EnsureUserProfile(s, from), User, Trim(raw)),
        if s.stage == AwaitingSelection then w.selectionReminder(s.language) else w.demoOver(s.language), None)
  {
    assert EnsureUserProfile(s, from).stage == s.stage;
  }

  /** While the board is being chosen, and after the demo, text is still logged, followed
      by the fixed reply; nothing else about the session changes. */
  lemma TextLoggedOutsideConversation(chatId: ChatId, s: SessionState, from: Sender, raw: string, env: Env, w: Presentation, ask: Responder)
    requires !IsStartCommand(raw) && Trim(raw) != ""
    requires s.stage == AwaitingSelection || s.stage == DemoComplete
    ensures var e := OnText(chatId, s, from, raw, env, w, ask);
      var reply := if s.stage == AwaitingSelection then w.selectionReminder(s.language) else w.demoOver(s.language);
      && e.session == EnsureUserProfile(s, from).(conversationLog :=
           s.conversationLog + [LogEntry(User, Trim(raw)), LogEntry(Bot, reply)])
      && e.out == [Reply(reply, None)]
  {
    StageReply(s, from, raw, env, w, ask);
    var s1 := EnsureUserProfile(s, from);
    assert s1.conversationLog == s.conversationLog;
  }

  // ---------------------------------------------------------------------------
  // The selection callback

  /** A callback outside the selection stage, or naming no candidate, only answers it. */
  lemma RejectedSelectionUnchanged(s: SessionState, index: nat, env: Env, w: Presentation, ask: Responder)
    requires Inv(s)
    requires s.stage != AwaitingSelection || index >= |s.personaCandidates|
    ensures OnSelect(s, index, env, w, ask).session == s
    ensures OnSelect(s, index, env, w, ask).out ==
      [AnswerCallback(if s.stage != AwaitingSelection then w.selectionUnavailable else w.invalidChoice)]
  {
  }

  /** An accepted pick: the index is recorded once, at most three are kept, the keyboard is
      redrawn with them and the acknowledgement reports the slots left; below three picks
      nothing else changes. */
  lemma PickAcknowledged(s: SessionState, index: nat, env: Env, w: Presentation, ask: Responder)
    requires Inv(s) && s.stage == AwaitingSelection && index < |s.personaCandidates|
    ensures var e := OnSelect(s, index, env, w, ask);
      var before := s.selectedPersonas.picked;
      var picked := if index in before then before else before + [index];
      && |picked| <= BoardSize && Distinct(picked) && index in picked
      && e.out[..2] == [EditKeyboard(w.keyboard(s.personaCandidates, picked)),
                        AnswerCallback(w.slotsLeft(s.language, BoardSize - |picked|))]
      && (|picked| < BoardSize ==> e.session == s.(selectedPersonas := Indexes(picked)) && |e.out| == 2)
  {
  }

  /** Forming the board from three valid picks: the chat becomes active with the picked
      candidates, in pick order, as its board; the readiness notice is sent and logged; and the
      situation itself is put to the board as the first question, in its detected language
      (the chat's, if none is detected), its answer or the apology sent and logged after the
      notice and counted once if answered. */
  lemma FormBoardEffects(s: SessionState, env: Env, w: Presentation, ask: Responder)
    requires s.selectedPersonas.Indexes? && |s.selectedPersonas.picked| == BoardSize
    requires forall k :: 0 <= k < BoardSize ==> s.selectedPersonas.picked[k] < |s.personaCandidates|
    requires s.userProfile.Some? && |s.personaCandidates| == PersonaCount && s.messagePairs == 0
    ensures var e := FormBoard(s, env, w, ask);
      var board := Resolve(s.personaCandidates, s.selectedPersonas.picked);
      var ready := w.boardReady(s.language);
      var detected := env.detectLanguage(s.situationDescription);
      var language := if detected != "" then detected else s.language;
      var answer := ask(s.situationDescription, language, board, s.situationDescription,
                        s.conversationLog + [LogEntry(Bot, ready)]);
      var reply := if answer.Success? then answer.value else w.answerFailed(language);
      && Inv(e.session)
      && e.session.stage == Active
      && e.session.selectedPersonas == Board(board)
      && e.session.language == language
      && e.session.messagePairs == (if answer.Success? then 1 else 0)
      && e.session.conversationLog == s.conversationLog + [LogEntry(Bot, ready), LogEntry(Bot, reply)]
      && e.out == [Reply(ready, None), Reply(reply, None)]
  {
    var board := Resolve(s.personaCandidates, s.selectedPersonas.picked);
    var s2 := s.(stage := Active, selectedPersonas := Board(board));
    var ready := PushLog(s2, Bot, w.boardReady(s2.language));
    var detected := env.detectLanguage(ready.situationDescription);
    var language := if detected != "" then detected else ready.language;
    AnswerQuestionCounts(ready.(language := language), ready.situationDescription, language, env, w, ask);
  }

  /** The callback of the third pick is the two acknowledgements followed by `FormBoard`. */
  lemma ThirdPickThen(s: SessionState, index: nat, env: Env, w: Presentation, ask: Responder)
    requires Inv(s) && s.stage == AwaitingSelection && index < |s.personaCandidates|
    requires |s.selectedPersonas.picked| == 2 && index !in s.selectedPersonas.picked
    ensures var p := s.selectedPersonas.picked;
      var s1 := s.(selectedPersonas := Indexes(p + [index]));
      OnSelect(s, index, env, w, ask) ==
        Then([EditKeyboard(w.keyboard(s.personaCandidates, p + [index])), AnswerCallback(w.slotsLeft(s.language, 0))],
             FormBoard(s1, env, w, ask))
  {
    assert AddPick(s.selectedPersonas.picked, index) == s.selectedPersonas.picked + [index];
  }

  /** The third distinct pick closes the selection: after the redrawn keyboard and the
      acknowledgement of no slots left, the board is formed (as `FormBoardEffects` describes)
      from the three candidates in pick order. */
  lemma ThirdPickFormsBoard(s: SessionState, index: nat, env: Env, w: Presentation, ask: Responder)
    requires Inv(s) && s.stage == AwaitingSelection && index < |s.personaCandidates|
    requires |s.selectedPersonas.picked| == 2 && index !in s.selectedPersonas.picked
    ensures var e := OnSelect(s, index, env, w, ask);
      var p := s.selectedPersonas.picked;
      var c := s.personaCandidates;
      var s1 := s.(selectedPersonas := Indexes(p + [index]));
      && Resolve(c, p + [index]) == [c[p[0]], c[p[1]], c[index]]
      && e.out[..2] == [EditKeyboard(w.keyboard(c, p + [index])), AnswerCallback(w.slotsLeft(s.language, 0))]
      && e.out[2..] == FormBoard(s1, env, w, ask).out
      && e.session == FormBoard(s1, env, w, ask).session
  {
    ThirdPickThen(s, index, env, w, ask);
  }

  /** Every selection callback keeps the invariant, and the only stage it changes is
      selection to active. */
  lemma {:induction false} OnSelectKeepsInv(s: SessionState, index: nat, env: Env, w: Presentation, ask: Responder)
    requires Inv(s)
    ensures Inv(OnSelect(s, index, env, w, ask).session)
    ensures OnSelect(s, index, env, w, ask).session.stage != s.stage ==>
      s.stage == AwaitingSelection && OnSelect(s, index, env, w, ask).session.stage == Active
  {
    if s.stage == AwaitingSelection && index < |s.personaCandidates| {
      var picked := AddPick(s.selectedPersonas.picked, index);
      if |picked| == BoardSize {
        FormBoardEffects(s.(selectedPersonas := Indexes(picked)), env, w, ask);
      }
    }
  }
}
