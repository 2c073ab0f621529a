/**
 * The in-memory session table: one mutable session record per chat, kept in a
 * process-wide map that is filled lazily and never emptied by the bot itself.
 *
 * `SessionState` is the value of a record at one moment; `Session` is the mutable
 * record the handlers share by reference; `Store` is the map. The pure functions
 * `AfterGet`, `AfterReset` and `AfterDelete` say what each store operation does to the
 * map of values, and the store's methods are proved to do exactly that.
 */
module SessionStore {
  import opened Wrappers
  import opened Domain

  /** The fields of a session record. */
  datatype SessionState = SessionState(
    chatId: ChatId,
    stage: Stage,
    language: string,
    personaCandidates: seq<Persona>,
    selectedPersonas: Selection,
    situationDescription: string,
    messagePairs: nat,
    conversationLog: seq<LogEntry>,
    userProfile: Option<UserProfile>)

  /** `defaultSession(chatId)`: a fresh record at the first stage, in Russian, with nothing collected. */
  function DefaultSession(chatId: ChatId): SessionState {
    SessionState(chatId, AwaitingSituation, "ru", [], Indexes([]), "", 0, [], None)
  }

  /** The record a chat sees: the stored one, or the default one for an unknown chat. */
  function Lookup(m: map<ChatId, SessionState>, chatId: ChatId): SessionState {
    if chatId in m then m[chatId] else DefaultSession(chatId)
  }

  /** The table after `getSession(chatId)`. */
  function AfterGet(m: map<ChatId, SessionState>, chatId: ChatId): (r: map<ChatId, SessionState>)
    ensures chatId in r && r[chatId] == Lookup(m, chatId)
    ensures chatId in m ==> r == m
    ensures chatId !in m ==> r[chatId] == DefaultSession(chatId)
    ensures r.Keys == m.Keys + {chatId}
    ensures forall c :: c in m && c != chatId ==> r[c] == m[c]
  {
    if chatId in m then m else m[chatId := DefaultSession(chatId)]
  }

  /** The table after `resetSession(chatId)`. */
  function AfterReset(m: map<ChatId, SessionState>, chatId: ChatId): (r: map<ChatId, SessionState>)
    ensures chatId in r && r[chatId] == DefaultSession(chatId)
    ensures r.Keys == m.Keys + {chatId}
    ensures forall c :: c in m && c != chatId ==> r[c] == m[c]
  {
    m[chatId := DefaultSession(chatId)]
  }

  /** The table after `deleteSession(chatId)`. */
  function AfterDelete(m: map<ChatId, SessionState>, chatId: ChatId): (r: map<ChatId, SessionState>)
    ensures chatId !in r
    ensures r.Keys == m.Keys - {chatId}
    ensures forall c :: c in r ==> r[c] == m[c]
  {
    m - {chatId}
  }

  /** Asking for the same chat twice gives the same record and the same table as asking once. */
  lemma GetIdempotent(m: map<ChatId, SessionState>, chatId: ChatId)
    ensures AfterGet(AfterGet(m, chatId), chatId) == AfterGet(m, chatId)
    ensures Lookup(AfterGet(m, chatId), chatId) == Lookup(m, chatId)
  {
  }

  /** After a delete, the next `getSession` recreates the default record: deleting and then
      fetching is the same as resetting. */
  lemma DeleteThenGet(m: map<ChatId, SessionState>, chatId: ChatId)
    ensures Lookup(AfterDelete(m, chatId), chatId) == DefaultSession(chatId)
    ensures AfterGet(AfterDelete(m, chatId), chatId) == AfterReset(m, chatId)
  {
  }

  /** One chat's session record, shared by reference between the store and the handlers. */
  class Session {
    const chatId: ChatId
    var stage: Stage
    var language: string
    var personaCandidates: seq<Persona>
    var selectedPersonas: Selection
    var situationDescription: string
    var messagePairs: nat
    var conversationLog: seq<LogEntry>
    var userProfile: Option<UserProfile>

    /** The record's current value. */
    ghost function State(): SessionState
      reads this
    {
      SessionState(chatId, stage, language, personaCandidates, selectedPersonas,
        situationDescription, messagePairs, conversationLog, userProfile)
    }

    /** `defaultSession(chatId)` as a new object. */
    constructor (chatId: ChatId)
      ensures State() == DefaultSession(chatId)
    {
      this.chatId := chatId;
      stage := AwaitingSituation;
      language := "ru";
      personaCandidates := [];
      selectedPersonas := Indexes([]);
      situationDescription := "";
      messagePairs := 0;
      conversationLog := [];
      userProfile := None;
    }
  }

  /** The module-level `sessions` map. */
  class Store {
    var sessions: map<ChatId, Session>

    /** Every record sits under its own chat id; so no record is shared by two chats. */
    ghost predicate Valid()
      reads this
    {
      forall c | c in sessions :: sessions[c].chatId == c
    }

    /** The value of every stored record. */
    ghost function Snapshot(): map<ChatId, SessionState>
      reads this, sessions.Values
    {
      map c | c in sessions :: sessions[c].State()
    }

    /** `new Map()` */
    constructor ()
      ensures Valid() && sessions == map[] && Snapshot() == map[]
    {
      sessions := map[];
    }

    /** `getSession(chatId)`: the stored record itself, created with default values if absent. */
    method GetSession(chatId: ChatId) returns (s: Session)
      requires Valid()
      modifies this
      ensures Valid()
      ensures chatId in sessions && s == sessions[chatId]
      ensures chatId in old(sessions) ==> sessions == old(sessions)
      ensures chatId !in old(sessions) ==> fresh(s) && sessions == old(sessions)[chatId := s]
      ensures Snapshot() == AfterGet(old(Snapshot()), chatId)
      ensures s.State() == Lookup(old(Snapshot()), chatId)
    {
      if chatId !in sessions {
        var created := new Session(chatId);
        sessions := sessions[chatId := created];
      }
      s := sessions[chatId];
    }

    /** `resetSession(chatId)`: a new default record replaces whatever was stored. */
    method ResetSession(chatId: ChatId) returns (s: Session)
      requires Valid()
      modifies this
      ensures Valid()
      ensures fresh(s) && sessions == old(sessions)[chatId := s]
      ensures Snapshot() == AfterReset(old(Snapshot()), chatId)
    {
      s := new Session(chatId);
      sessions := sessions[chatId := s];
    }

    /** `deleteSession(chatId)` */
    method DeleteSession(chatId: ChatId)
      requires Valid()
      modifies this
      ensures Valid()
      ensures sessions == old(sessions) - {chatId}
      ensures Snapshot() == AfterDelete(old(Snapshot()), chatId)
    {
      sessions := sessions - {chatId};
    }
  }
}
