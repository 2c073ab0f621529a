/**
 * The entities the advisory-board bot works with, and the outside world it talks to.
 * Chats, users, personas and log entries are values; outbound Telegram actions are
 * recorded as `Outbound` values; every call the bot makes to code outside its core
 * (language detection, the two language-model calls) is an oracle in `Env`.
 */
module Domain {
  import opened Wrappers

  /** Telegram chat identifier (`ctx.chat.id`). */
  type ChatId = int

  /** The conversation stages, in the order a chat goes through them. */
  datatype Stage = AwaitingSituation | AwaitingSelection | Active | DemoComplete

  /** One persona record as produced by the persona generator. */
  datatype Persona = Persona(
    name: string,
    headline: string,
    reason: string,
    signatureStyle: string,
    principles: seq<string>)

  /** Who wrote a log entry: `'user'` or `'bot'`. */
  datatype Role = User | Bot

  datatype LogEntry = LogEntry(role: Role, text: string)

  /** The identity snapshot kept in `session.userProfile`. */
  datatype UserProfile = UserProfile(id: int, firstName: string, lastName: string, username: string)

  /** The sender of an update (`ctx.from`); the name fields may be absent. */
  datatype Sender = Sender(
    id: int,
    firstName: Option<string>,
    lastName: Option<string>,
    username: Option<string>)

  /**
   * `session.selectedPersonas`: first the picked candidate indexes, in pick order;
   * once three are picked, the three persona records themselves.
   */
  datatype Selection = Indexes(picked: seq<nat>) | Board(members: seq<Persona>)

  /** One inline-keyboard button: its text and its callback payload. */
  datatype Button = Button(text: string, payload: string)

  /** One content block of a language-model response (`response.content[k]`). */
  datatype ContentBlock = ContentBlock(kind: string, text: string)

  /** What the bot sends to Telegram. */
  datatype Outbound =
    | Reply(text: string, markup: Option<seq<Button>>)    // ctx.reply, with an inline keyboard or not
    | EditKeyboard(buttons: seq<Button>)                  // ctx.editMessageReplyMarkup
    | AnswerCallback(text: string)                        // ctx.answerCbQuery
    | AdminMessage(to: string, text: string)              // telegram.sendMessage to the administrator
    | AdminDocument(to: string, content: string)          // telegram.sendDocument to the administrator

  /**
   * The outside world seen by one event.
   * - detectLanguage: `detectLanguage` of the language module (text to ISO code);
   * - languageName: `getLanguageDisplayName` (ISO code to a language name);
   * - personaApi: the persona-generation request for (situation, language) followed by
   *   `JSON.parse` of its first text block; `None` when the request, the text-block check or
   *   the parse throws, or when the parsed value is not an array (its length is checked
   *   in `PersonaGenerator`);
   * - boardApi: the board-response request for a prompt; the content blocks of the response,
   *   or `None` when the request throws;
   * - adminTelegramId: the configured administrator chat, `""` when none is configured.
   */
  datatype Env = Env(
    detectLanguage: string -> string,
    languageName: string -> string,
    personaApi: (string, string) -> Option<seq<Persona>>,
    boardApi: string -> Option<seq<ContentBlock>>,
    adminTelegramId: string)
}
