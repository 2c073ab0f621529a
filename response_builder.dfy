/**
 * The prompt assembly of the board-response request and the check on its answer.
 * The request itself is the `boardApi` oracle of `Env`.
 */
module ResponseBuilder {
  import opened Wrappers
  import opened Text
  import opened Domain

  /** How many of the latest log entries the prompt quotes. */
  const ExcerptLimit: nat := 6

  function Min(a: nat, b: nat): nat {
    if a <= b then a else b
  }

  /** The speaker label of a log entry in the excerpt: the user, or the board. */
  function Speaker(role: Role): string {
    if role == User then "Пользователь" else "Совет"
  }

  function ExcerptLine(e: LogEntry): string {
    Speaker(e.role) + ": " + e.text
  }

  /** The excerpt lines: one per entry of the last six entries of the log, oldest first. */
  function ExcerptLines(log: seq<LogEntry>): (lines: seq<string>)
    ensures |lines| == Min(ExcerptLimit, |log|)
    ensures forall k :: 0 <= k < |lines| ==> lines[k] == ExcerptLine(log[|log| - |lines| + k])
  {
    var recent := if |log| <= ExcerptLimit then log else log[|log| - ExcerptLimit..];
    seq(|recent|, k requires 0 <= k < |recent| => ExcerptLine(recent[k]))
  }

  /** `buildConversationExcerpt(log)`: the excerpt lines joined by newlines; empty exactly
      when the log is empty. */
  function BuildConversationExcerpt(log: seq<LogEntry>): (r: string)
    ensures r == "" <==> log == []
  {
    var lines := ExcerptLines(log);
    if lines == [] then "" else JoinNonEmpty(lines, "\n"); Join(lines, "\n")
  }

  /** The newest entry is always quoted, as the last line of the excerpt. */
  lemma ExcerptEndsWithNewest(log: seq<LogEntry>, e: LogEntry)
    ensures EndsWith(BuildConversationExcerpt(log + [e]), ExcerptLine(e))
  {
    var lines := ExcerptLines(log + [e]);
    var n := |lines|;
    assert lines[n - 1] == ExcerptLine(e);
    if n == 1 {
      assert lines == [ExcerptLine(e)];
    } else {
      assert lines == lines[..n - 1] + [ExcerptLine(e)];
      JoinSnoc(lines[..n - 1], ExcerptLine(e), "\n");
    }
  }

  /** Entries older than the last six do not affect the excerpt. */
  lemma ExcerptIgnoresOlderEntries(older: seq<LogEntry>, log: seq<LogEntry>)
    requires |log| >= ExcerptLimit
    ensures BuildConversationExcerpt(older + log) == BuildConversationExcerpt(log)
  {
    var whole := older + log;
    assert whole[|whole| - ExcerptLimit..] == log[|log| - ExcerptLimit..];
    assert ExcerptLines(whole) == ExcerptLines(log);
  }

  /** The five lines describing one board member, members numbered from 1: the name, the
      headline, the reason, the signature style, and the principles separated by `; `. */
  function BriefLines(p: Persona, index: nat): (lines: seq<string>)
    ensures |lines| == 5
    ensures StartsWith(lines[0], "Персона " + NatToString(index + 1) + ": ")
    ensures lines[0] == "Персона " + NatToString(index + 1) + ": " + p.name
    ensures lines[1] == "Краткое описание: " + p.headline
    ensures lines[2] == "Причина релевантности: " + p.reason
    ensures lines[3] == "Подпись стиля: " + p.signatureStyle
    ensures lines[4] == "Принципы: " + Join(p.principles, "; ")
  {
    var head := "Персона " + NatToString(index + 1) + ": ";
    assert (head + p.name)[..|head|] == head;
    [ head + p.name,
      "Краткое описание: " + p.headline,
      "Причина релевантности: " + p.reason,
      "Подпись стиля: " + p.signatureStyle,
      "Принципы: " + Join(p.principles, "; ") ]
  }

  /** Every one of a member's principles is quoted in its brief's principles line. */
  lemma BriefQuotesPrinciples(p: Persona, index: nat, j: nat)
    requires j < |p.principles|
    ensures Contains(BriefLines(p, index)[4], p.principles[j])
  {
    JoinContainsPart(p.principles, "; ", j);
    ContainsAfter("Принципы: ", Join(p.principles, "; "), p.principles[j]);
  }

  function Brief(p: Persona, index: nat): string {
    Join(BriefLines(p, index), "\n")
  }

  /** The persona briefs of the prompt: one per member, in board order, separated by blank lines. */
  function PersonaBriefs(personas: seq<Persona>): string {
    Join(seq(|personas|, i requires 0 <= i < |personas| => Brief(personas[i], i)), "\n\n")
  }

  /** Adding a member at the end adds exactly its brief, numbered after the others. */
  lemma PersonaBriefsSnoc(personas: seq<Persona>, p: Persona)
    requires personas != []
    ensures PersonaBriefs(personas + [p]) == PersonaBriefs(personas) + "\n\n" + Brief(p, |personas|)
  {
    var all := personas + [p];
    var briefs := seq(|all|, i requires 0 <= i < |all| => Brief(all[i], i));
    var first := seq(|personas|, i requires 0 <= i < |personas| => Brief(personas[i], i));
    assert briefs == first + [Brief(p, |personas|)];
    JoinSnoc(first, Brief(p, |personas|), "\n\n");
  }

  /** The last line of the answer-format instructions, the only one that carries data: the
      language the board must answer in. */
  function LanguageInstruction(languageName: string): string {
    "Ответь на " + languageName + "."
  }

  /** The placeholder used when there is no conversation to quote. */
  const FirstQuestionNote: string := "Это первый вопрос после формирования совета."

  const RecentHeader: string := "Последние сообщения:\n"

  /** The conversation part of the prompt: the excerpt under a header, or the placeholder. */
  function RecentSection(log: seq<LogEntry>): string {
    var excerpt := BuildConversationExcerpt(log);
    if excerpt != "" then RecentHeader + excerpt else FirstQuestionNote
  }

  /** The section header and the placeholder differ in their first character. */
  lemma HeadersDiffer()
    ensures RecentHeader[0] == 'П' && FirstQuestionNote[0] == 'Э'
  {
  }

  /** The prompt quotes the conversation exactly when there is one; an empty log gives the
      first-question placeholder and nothing else. */
  lemma PlaceholderExactlyForEmptyLog(log: seq<LogEntry>)
    ensures RecentSection(log) == FirstQuestionNote <==> log == []
    ensures log != [] ==> StartsWith(RecentSection(log), RecentHeader)
  {
    if log != [] {
      var r := RecentSection(log);
      assert r == RecentHeader + BuildConversationExcerpt(log);
      assert r[..|RecentHeader|] == RecentHeader;
      assert r[0] == RecentHeader[0];
      HeadersDiffer();
    }
  }

  /** The user message of the board request. */
  function BuildUserPrompt(situation: string, personas: seq<Persona>, log: seq<LogEntry>,
                           question: string, languageName: string): string
  {
    Join([
      "Исходная ситуация пользователя: " + situation,
      "",
      "Состав совета:",
      PersonaBriefs(personas),
      "",
      RecentSection(log),
      "",
      "Вопрос пользователя: \"\"\"" + question + "\"\"\"",
      "",
      LanguageInstruction(languageName)], "\n")
  }

  /** The answer in a response: the first content block must exist and be a text block; its
      text, trimmed, is the answer. */
  function ExtractAnswer(blocks: seq<ContentBlock>): (r: Result<string, string>)
    ensures r.Success? <==> |blocks| > 0 && blocks[0].kind == "text"
    ensures r.Success? ==> r.value == Trim(blocks[0].text) && Trimmed(r.value)
  {
    if |blocks| == 0 || blocks[0].kind != "text" then
      Failure("Не удалось получить ответ совета")
    else
      TrimTrimmed(blocks[0].text);
      Success(Trim(blocks[0].text))
  }

  /** `generateBoardResponse`: builds the prompt, asks the model, and checks the answer.
      A thrown request and a response without a leading text block are both failures. */
  function GenerateBoardResponse(env: Env, question: string, targetLanguage: string,
                                 personas: seq<Persona>, situation: string,
                                 log: seq<LogEntry>): (r: Result<string, string>)
    ensures var blocks := env.boardApi(BuildUserPrompt(situation, personas, log, question,
                                                       env.languageName(targetLanguage)));
      && (r.Success? <==> blocks.Some? && |blocks.value| > 0 && blocks.value[0].kind == "text")
      && (r.Success? ==> r.value == Trim(blocks.value[0].text))
    ensures r.Success? ==> Trimmed(r.value)
  {
    var prompt := BuildUserPrompt(situation, personas, log, question, env.languageName(targetLanguage));
    match env.boardApi(prompt)
    case None => Failure("request failed")
    case Some(blocks) => ExtractAnswer(blocks)
  }
}
