/**
 * The bot's event handlers as they run: each one fetches the chat's shared session record
 * from the store and changes it step by step, while `sendMessageAndLog` fetches the record
 * again by chat id to log what it sent. Each handler is proved to leave every record exactly
 * as the corresponding function of `BotSpec` says, and to send what it says, in order.
 *
 * The handlers are stated for any presentation and any board responder; the bot's own are
 * `BotText.BotPresentation` and `BotSpec.BoardResponder(env)`.
 */
module Bot {
  import opened Wrappers
  import opened Text
  import opened Domain
  import opened SessionStore
  import opened BotText
  import opened PersonaGenerator
  import Spec = BotSpec

  /** The chat's stored record, if it has one: the only record a handler may change. A new
      chat's record is created by the handler itself. */
  ghost function Held(store: Store, chatId: ChatId): set<Session>
    reads store
  {
    if chatId in store.sessions then {store.sessions[chatId]} else {}
  }

  /** `pushLog(session, role, text)` */
  method PushLog(session: Session, role: Role, text: string)
    modifies session
    ensures session.State() == Spec.PushLog(old(session.State()), role, text)
  {
    session.conversationLog := session.conversationLog + [LogEntry(role, text)];
  }

  /** `ensureUserProfile(session, from)` */
  method EnsureUserProfile(session: Session, from: Sender)
    modifies session
    ensures session.State() == Spec.EnsureUserProfile(old(session.State()), from)
  {
    if session.userProfile.None? {
      var firstName := if from.firstName.Some? then from.firstName.value else "";
      var lastName := if from.lastName.Some? then from.lastName.value else "";
      var username := if from.username.Some? then from.username.value else "";
      session.userProfile := Some(UserProfile(from.id, firstName, lastName, username));
    }
  }

  /** `sendMessageAndLog(ctx, text, extra)`: the reply is sent, then the chat's record is
      fetched again by id and the text logged there. The chat is always in the table by then,
      so the fetch returns the stored record without changing the table (as `GetSession`
      promises for a present chat), and that record is the one the caller holds. */
  method SendMessageAndLog(store: Store, chatId: ChatId, text: string, markup: Option<seq<Button>>)
    returns (out: seq<Outbound>)
    requires store.Valid() && chatId in store.sessions
    modifies store.sessions[chatId]
    ensures store.sessions[chatId].State() == Spec.PushLog(old(store.sessions[chatId].State()), Bot, text)
    ensures out == [Reply(text, markup)]
  {
    out := [Reply(text, markup)];
    var session := store.sessions[chatId];
    PushLog(session, Bot, text);
  }

  /** `handleStart`: a new record replaces the chat's, takes the sender's profile, and the
      greeting is sent. */
  method HandleStart(store: Store, chatId: ChatId, from: Sender, w: Presentation) returns (out: seq<Outbound>)
    requires store.Valid()
    modifies store
    ensures store.Valid() && chatId in store.sessions && fresh(store.sessions[chatId])
    ensures store.sessions == old(store.sessions)[chatId := store.sessions[chatId]]
    ensures store.sessions[chatId].State() == Spec.HandleStart(chatId, from, w).session
    ensures out == Spec.HandleStart(chatId, from, w).out
  {
    var session := store.ResetSession(chatId);
    EnsureUserProfile(session, from);
    session.stage := AwaitingSituation;
    session.language := "ru";
    out := SendMessageAndLog(store, chatId, w.greeting, None);
  }

  /** `finalizeDemo` */
  method FinalizeDemo(store: Store, chatId: ChatId, session: Session, env: Env, w: Presentation)
    returns (out: seq<Outbound>)
    requires store.Valid() && chatId in store.sessions && store.sessions[chatId] == session
    modifies session
    ensures session.State() == Spec.FinalizeDemo(old(session.State()), env, w).session
    ensures out == Spec.FinalizeDemo(old(session.State()), env, w).out
  {
    session.stage := DemoComplete;
    var farewell := w.farewell(session.language);
    out := SendMessageAndLog(store, chatId, farewell, None);
    if env.adminTelegramId != "" {
      var summary := w.adminSummary(session.userProfile, session.messagePairs);
      out := out + [AdminMessage(env.adminTelegramId, summary)];
      var transcript := w.transcript(session.conversationLog);
      out := out + [AdminDocument(env.adminTelegramId, transcript)];
      session.conversationLog := [];
    }
  }

  /** `answerQuestion` */
  method AnswerQuestion(store: Store, chatId: ChatId, session: Session, question: string, language: string,
                        env: Env, w: Presentation, ask: Spec.Responder)
    returns (out: seq<Outbound>)
    requires store.Valid() && chatId in store.sessions && store.sessions[chatId] == session
    modifies session
    ensures session.State() == Spec.AnswerQuestion(old(session.State()), question, language, env, w, ask).session
    ensures out == Spec.AnswerQuestion(old(session.State()), question, language, env, w, ask).out
  {
    var answer := ask(question, language, Spec.BoardOf(session.selectedPersonas),
                      session.situationDescription, session.conversationLog);
    match answer
    case Failure(_) =>
      out := SendMessageAndLog(store, chatId, w.answerFailed(language), None);
    case Success(text) =>
      out := SendMessageAndLog(store, chatId, text, None);
      session.messagePairs := session.messagePairs + 1;
      if session.messagePairs >= Spec.DemoLimit {
        var closing := FinalizeDemo(store, chatId, session, env, w);
        out := out + closing;
      }
  }

  /** `handleSituationDescription` */
  method HandleSituationDescription(store: Store, chatId: ChatId, session: Session, text: string,
                                    env: Env, w: Presentation)
    returns (out: seq<Outbound>)
    requires store.Valid() && chatId in store.sessions && store.sessions[chatId] == session
    modifies session
    ensures session.State() == Spec.HandleSituationDescription(old(session.State()), text, env, w).session
    ensures out == Spec.HandleSituationDescription(old(session.State()), text, env, w).out
  {
    session.situationDescription := text;
    session.language := env.detectLanguage(text);
    out := SendMessageAndLog(store, chatId, w.analyzing(session.language), None);
    var personas := GeneratePersonaOptions(env, text, session.language);
    match personas
    case None =>
      var failed := SendMessageAndLog(store, chatId, w.personasFailed(session.language), None);
      out := out + failed;
    case Some(candidates) =>
      session.personaCandidates := candidates;
      session.stage := AwaitingSelection;
      var message := w.personaList(candidates, session.language);
      var keyboard := w.keyboard(candidates, []);
      var list := SendMessageAndLog(store, chatId, message, Some(keyboard));
      out := out + list;
  }

  /** `handleActiveQuestion` */
  method HandleActiveQuestion(store: Store, chatId: ChatId, session: Session, text: string,
                              env: Env, w: Presentation, ask: Spec.Responder)
    returns (out: seq<Outbound>)
    requires store.Valid() && chatId in store.sessions && store.sessions[chatId] == session
    modifies session
    ensures session.State() == Spec.HandleActiveQuestion(old(session.State()), text, env, w, ask).session
    ensures out == Spec.HandleActiveQuestion(old(session.State()), text, env, w, ask).out
  {
    var questionLanguage := env.detectLanguage(text);
    session.language := questionLanguage;
    if w.vague(text) {
      out := SendMessageAndLog(store, chatId, w.clarification(questionLanguage), None);
    } else {
      out := AnswerQuestion(store, chatId, session, text, questionLanguage, env, w, ask);
    }
  }

  /** The `text` handler's work on the chat's record for any text that is not a start command. */
  method OnMessage(store: Store, chatId: ChatId, session: Session, from: Sender, raw: string,
                   env: Env, w: Presentation, ask: Spec.Responder)
    returns (out: seq<Outbound>)
    requires store.Valid() && chatId in store.sessions && store.sessions[chatId] == session
    modifies session
    ensures session.State() == Spec.OnMessage(old(session.State()), from, raw, env, w, ask).session
    ensures out == Spec.OnMessage(old(session.State()), from, raw, env, w, ask).out
  {
    EnsureUserProfile(session, from);
    var text := Trim(raw);
    if text == "" {
      out := [];
    } else {
      PushLog(session, User, text);
      match session.stage
      case AwaitingSituation =>
        out := HandleSituationDescription(store, chatId, session, text, env, w);
      case AwaitingSelection =>
        out := SendMessageAndLog(store, chatId, w.selectionReminder(session.language), None);
      case Active =>
        out := HandleActiveQuestion(store, chatId, session, text, env, w, ask);
      case DemoComplete =>
        out := SendMessageAndLog(store, chatId, w.demoOver(session.language), None);
    }
  }

  /** The third pick: the chat becomes active with the picked candidates as its board, the
      readiness notice is sent, and the situation is put to the board as the first question. */
  method FormBoard(store: Store, chatId: ChatId, session: Session, env: Env, w: Presentation, ask: Spec.Responder)
    returns (out: seq<Outbound>)
    requires store.Valid() && chatId in store.sessions && store.sessions[chatId] == session
    requires session.selectedPersonas.Indexes?
    requires forall k :: 0 <= k < |session.selectedPersonas.picked| ==>
      session.selectedPersonas.picked[k] < |session.personaCandidates|
    modifies session
    ensures session.State() == Spec.FormBoard(old(session.State()), env, w, ask).session
    ensures out == Spec.FormBoard(old(session.State()), env, w, ask).out
  {
    session.stage := Active;
    session.selectedPersonas := Board(Spec.Resolve(session.personaCandidates, session.selectedPersonas.picked));
    out := SendMessageAndLog(store, chatId, w.boardReady(session.language), None);
    var detected := env.detectLanguage(session.situationDescription);
    var initialLanguage := if detected != "" then detected else session.language;
    session.language := initialLanguage;
    var first := AnswerQuestion(store, chatId, session, session.situationDescription, initialLanguage, env, w, ask);
    out := out + first;
  }

  /** The selection callback's work on the chat's record, for the index the payload names. */
  method Select(store: Store, chatId: ChatId, session: Session, index: nat,
                env: Env, w: Presentation, ask: Spec.Responder)
    returns (out: seq<Outbound>)
    requires store.Valid() && chatId in store.sessions && store.sessions[chatId] == session
    requires Spec.CanSelect(session.State())
    modifies session
    ensures session.State() == Spec.OnSelect(old(session.State()), index, env, w, ask).session
    ensures out == Spec.OnSelect(old(session.State()), index, env, w, ask).out
  {
    if session.stage != AwaitingSelection {
      out := [AnswerCallback(w.selectionUnavailable)];
    } else if index >= |session.personaCandidates| {
      out := [AnswerCallback(w.invalidChoice)];
    } else {
      if index !in session.selectedPersonas.picked {
        session.selectedPersonas := Indexes(session.selectedPersonas.picked + [index]);
      }
      if |session.selectedPersonas.picked| > Spec.BoardSize {
        session.selectedPersonas := Indexes(session.selectedPersonas.picked[..Spec.BoardSize]);
      }
      var picked := session.selectedPersonas.picked;
      var keyboard := w.keyboard(session.personaCandidates, picked);
      out := [EditKeyboard(keyboard), AnswerCallback(w.slotsLeft(session.language, Spec.BoardSize - |picked|))];
      if |picked| == Spec.BoardSize {
        var formed := FormBoard(store, chatId, session, env, w, ask);
        out := out + formed;
      }
    }
  }

  /** Any text that is not a start command: the chat's record is fetched (created for a new chat) and
      becomes what `BotSpec.OnMessage` says. */
  method FetchAndHandleMessage(store: Store, chatId: ChatId, from: Sender, raw: string,
                               env: Env, w: Presentation, ask: Spec.Responder)
    returns (out: seq<Outbound>)
    requires store.Valid()
    modifies store, Held(store, chatId)
    ensures store.Valid() && chatId in store.sessions
    ensures store.sessions == old(store.sessions)[chatId := store.sessions[chatId]]
    ensures var e := Spec.OnMessage(Lookup(old(store.Snapshot()), chatId), from, raw, env, w, ask);
      store.sessions[chatId].State() == e.session && out == e.out
  {
    var session := store.GetSession(chatId);
    out := OnMessage(store, chatId, session, from, raw, env, w, ask);
  }

  /** The `text` handler. The chat's record (the default one for a new chat) becomes what
      `BotSpec.OnText` says and keeps the session invariant; by the frame, every other record
      keeps its fields, so a store whose records all satisfy the invariant keeps that property. */
  method OnText(store: Store, chatId: ChatId, from: Sender, raw: string, env: Env, w: Presentation, ask: Spec.Responder)
    returns (out: seq<Outbound>)
    requires store.Valid() && Spec.Inv(Lookup(store.Snapshot(), chatId))
    modifies store, Held(store, chatId)
    ensures store.Valid() && chatId in store.sessions
    ensures store.sessions == old(store.sessions)[chatId := store.sessions[chatId]]
    ensures var e := Spec.OnText(chatId, Lookup(old(store.Snapshot()), chatId), from, raw, env, w, ask);
      store.sessions[chatId].State() == e.session && Spec.Inv(e.session) && out == e.out
  {
    ghost var s := Lookup(store.Snapshot(), chatId);
    Spec.OnTextKeepsInv(chatId, s, from, raw, env, w, ask);
    if IsStartCommand(raw) {
      out := HandleStart(store, chatId, from, w);
    } else {
      out := FetchAndHandleMessage(store, chatId, from, raw, env, w, ask);
    }
  }

  /** The `select_` callback handler. A payload without `select_` and digits is not routed
      here and changes nothing; otherwise the chat's record is fetched (created if new) and
      becomes what `BotSpec.OnSelect` says for the index the payload names, keeping the
      session invariant. As for `OnText`, no other record changes. */
  method OnSelect(store: Store, chatId: ChatId, payload: string, env: Env, w: Presentation, ask: Spec.Responder)
    returns (out: seq<Outbound>)
    requires store.Valid() && Spec.Inv(Lookup(store.Snapshot(), chatId))
    modifies store, Held(store, chatId)
    ensures store.Valid()
    ensures ParseSelectIndex(payload).None? ==> unchanged(store) && unchanged(Held(store, chatId)) && out == []
    ensures ParseSelectIndex(payload).Some? ==>
      && chatId in store.sessions
      && store.sessions == old(store.sessions)[chatId := store.sessions[chatId]]
      && var e := Spec.OnSelect(Lookup(old(store.Snapshot()), chatId), ParseSelectIndex(payload).value, env, w, ask);
         store.sessions[chatId].State() == e.session && Spec.Inv(e.session) && out == e.out
  {
    ghost var s := Lookup(store.Snapshot(), chatId);
    match SelectMatch(payload)
    case None =>
      out := [];
    case Some(digits) =>
      var index := DecimalValue(digits);
      Spec.OnSelectKeepsInv(s, index, env, w, ask);
      var session := store.GetSession(chatId);
      out := Select(store, chatId, session, index, env, w, ask);
  }
}
