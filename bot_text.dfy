/**
 * The pure parts of the bot's dispatcher: the vagueness heuristic, sentence completion,
 * the selection keyboard and its callback payloads, and every fixed message text.
 */
module BotText {
  import opened Wrappers
  import opened Text
  import opened Domain

  // ---------------------------------------------------------------------------
  // Clarification heuristic
  // ---------------------------------------------------------------------------

  /** Words whose presence makes a short question specific enough. */
  const DetailKeywords: seq<string> := [
    "клиент", "проект", "курс", "стартап", "продаж", "маркет",
    "евро", "доллар", "руб", "budget", "revenue", "users",
    "launch", "pricing", "team", "timeline"]

  /** Below this length a question needs a keyword, a digit or punctuation. */
  const ShortQuestionLength: nat := 80

  /** Trimmed and lower-cased, as the heuristic sees the text. */
  function Normalize(text: string): string {
    Lower(Trim(text))
  }

  /** Some broad-request pattern occurs in the normalised text. The patterns are matched as
      substrings, in their source order; the first, `заработ(ать)? много денег`, is written
      as its two alternatives. */
  predicate IsBroad(n: string) {
    || Contains(n, "заработ много денег")
    || Contains(n, "заработать много денег")
    || Contains(n, "что делать")
    || Contains(n, "что посоветуешь")
    || Contains(n, "дай совет")
    || Contains(n, "помоги")
    || Contains(n, "i need help")
    || Contains(n, "what should i do")
    || Contains(n, "i feel lost")
    || Contains(n, "help me")
  }

  predicate HasDetailKeyword(n: string) {
    exists k | k in DetailKeywords :: Contains(n, k)
  }

  predicate HasDigit(n: string) {
    exists i | 0 <= i < |n| :: IsDigit(n[i])
  }

  predicate IsPunctuation(c: char) {
    c == ',' || c == '.' || c == ';' || c == ':' || c == '!' || c == '?'
  }

  predicate HasPunctuation(n: string) {
    exists i | 0 <= i < |n| :: IsPunctuation(n[i])
  }

  /** `needsClarification(text)`: whether a question is too vague to send to the board. */
  function NeedsClarification(text: string): bool {
    var n := Normalize(text);
    if n == "" then true
    else if IsBroad(n) then true
    else if |n| < ShortQuestionLength && !HasDetailKeyword(n) && !HasDigit(n) && !HasPunctuation(n) then true
    else false
  }

  /** Digits and the punctuation the heuristic looks for are not white space, and lie below
      `A`, where lower-casing changes nothing. */
  lemma DigitIsMark(c: char)
    requires IsDigit(c)
    ensures c < 'A' && !IsSpace(c)
  {
  }

  lemma PunctuationIsMark(c: char)
    requires IsPunctuation(c)
    ensures c < 'A' && !IsSpace(c)
  {
  }

  /** Lower-casing a slice `t` of `s` that holds every digit of `s` neither adds nor removes
      digits. */
  lemma LowerSliceKeepsDigits(s: string, t: string, i: nat)
    requires i + |t| <= |s| && t == s[i..i + |t|]
    requires forall k :: 0 <= k < |s| && IsDigit(s[k]) ==> i <= k < i + |t|
    ensures HasDigit(Lower(t)) <==> HasDigit(s)
  {
    if HasDigit(Lower(t)) {
      var j :| 0 <= j < |Lower(t)| && IsDigit(Lower(t)[j]);
      LowerPieceFindChar(s, t, i, j);
    }
    if HasDigit(s) {
      var k :| 0 <= k < |s| && IsDigit(s[k]);
      LowerPieceKeepChar(s, t, i, k);
      assert IsDigit(Lower(t)[k - i]);
    }
  }

  /** The same for the punctuation the heuristic looks for. */
  lemma LowerSliceKeepsPunctuation(s: string, t: string, i: nat)
    requires i + |t| <= |s| && t == s[i..i + |t|]
    requires forall k :: 0 <= k < |s| && IsPunctuation(s[k]) ==> i <= k < i + |t|
    ensures HasPunctuation(Lower(t)) <==> HasPunctuation(s)
  {
    if HasPunctuation(Lower(t)) {
      var j :| 0 <= j < |Lower(t)| && IsPunctuation(Lower(t)[j]);
      LowerPieceFindChar(s, t, i, j);
    }
    if HasPunctuation(s) {
      var k :| 0 <= k < |s| && IsPunctuation(s[k]);
      LowerPieceKeepChar(s, t, i, k);
      assert IsPunctuation(Lower(t)[k - i]);
    }
  }

  /** Normalising keeps the trimmed length, and neither adds nor removes digits. */
  lemma NormalizeKeepsDigits(text: string)
    ensures |Normalize(text)| == |Trim(text)|
    ensures HasDigit(Normalize(text)) <==> HasDigit(text)
  {
    var i := TrimKeepsNonSpace(text);
    forall k | 0 <= k < |text| && IsDigit(text[k])
      ensures i <= k < i + |Trim(text)|
    {
      DigitIsMark(text[k]);
    }
    LowerSliceKeepsDigits(text, Trim(text), i);
  }

  /** Normalising neither adds nor removes the punctuation the heuristic looks for. */
  lemma NormalizeKeepsPunctuation(text: string)
    ensures HasPunctuation(Normalize(text)) <==> HasPunctuation(text)
  {
    var i := TrimKeepsNonSpace(text);
    forall k | 0 <= k < |text| && IsPunctuation(text[k])
      ensures i <= k < i + |Trim(text)|
    {
      PunctuationIsMark(text[k]);
    }
    LowerSliceKeepsPunctuation(text, Trim(text), i);
  }

  /** No detail keyword is empty, so text that holds one is not empty. */
  lemma KeywordNeedsText(n: string)
    requires HasDetailKeyword(n)
    ensures n != ""
  {
    var k :| k in DetailKeywords && Contains(n, k);
    assert k != "";
  }

  /** The heuristic stated on the text as the user typed it: blank text and a broad request are
      vague; a text that matches no broad pattern is specific once it is 80 characters long
      (after trimming), holds a detail keyword once normalised, or has a digit or one of
      `, . ; : ! ?` anywhere; a shorter non-blank one with none of these is vague. */
  lemma NeedsClarificationCases(text: string)
    ensures (forall i :: 0 <= i < |text| ==> IsSpace(text[i])) ==> NeedsClarification(text)
    ensures IsBroad(Normalize(text)) ==> NeedsClarification(text)
    ensures !IsBroad(Normalize(text)) && |Trim(text)| >= ShortQuestionLength ==> !NeedsClarification(text)
    ensures !IsBroad(Normalize(text)) && (HasDigit(text) || HasPunctuation(text)) ==> !NeedsClarification(text)
    ensures !IsBroad(Normalize(text)) && HasDetailKeyword(Normalize(text)) ==> !NeedsClarification(text)
    ensures Trim(text) != "" && !IsBroad(Normalize(text)) && |Trim(text)| < ShortQuestionLength
            && !HasDetailKeyword(Normalize(text)) && !HasDigit(text) && !HasPunctuation(text)
            ==> NeedsClarification(text)
  {
    TrimBlank(text);
    NormalizeKeepsDigits(text);
    NormalizeKeepsPunctuation(text);
    if HasDetailKeyword(Normalize(text)) {
      KeywordNeedsText(Normalize(text));
    }
  }

  /** The heuristic ignores surrounding white space and letter case. */
  lemma NeedsClarificationNormalised(text: string)
    ensures NeedsClarification(Trim(text)) == NeedsClarification(text)
    ensures NeedsClarification(Lower(text)) == NeedsClarification(text)
  {
    TrimIdempotent(text);
    TrimLower(text);
    LowerIdempotent(Trim(text));
  }

  // ---------------------------------------------------------------------------
  // Sentences
  // ---------------------------------------------------------------------------

  predicate IsTerminator(c: char) {
    c == '.' || c == '!' || c == '?'
  }

  /** `ensureSentence(text)`: blank text becomes empty; otherwise the trimmed text, closed by
      a full stop unless it already ends in `.`, `!` or `?`. */
  function EnsureSentence(text: string): (r: string)
    ensures r == "" <==> Trim(text) == ""
    ensures r != "" ==> Trimmed(r) && IsTerminator(r[|r| - 1])
    ensures r != "" ==> r == Trim(text) || r == Trim(text) + "."
    ensures var t := Trim(text); t != "" ==> (r == t <==> IsTerminator(t[|t| - 1]))
  {
    TrimTrimmed(text);
    CloseSentence(Trim(text))
  }

  /** Closes a non-empty text by a full stop unless it already ends in `.`, `!` or `?`. */
  function CloseSentence(t: string): (r: string)
    ensures r == "" <==> t == ""
    ensures Trimmed(t) && r != "" ==> Trimmed(r) && IsTerminator(r[|r| - 1])
    ensures r != "" ==> r == t || r == t + "."
    ensures t != "" ==> (r == t <==> IsTerminator(t[|t| - 1]))
  {
    if t == "" then ""
    else if IsTerminator(t[|t| - 1]) then t
    else
      var r := t + ".";
      assert |r| == |t| + 1 && r[0] == t[0] && r[|r| - 1] == '.';
      r
  }

  /** Completing a sentence twice is completing it once. */
  lemma EnsureSentenceIdempotent(text: string)
    ensures EnsureSentence(EnsureSentence(text)) == EnsureSentence(text)
  {
    var r := EnsureSentence(text);
    if r != "" {
      TrimmedIsFixed(r);
    }
  }

  // ---------------------------------------------------------------------------
  // The start command
  // ---------------------------------------------------------------------------

  /** A character that may continue a command name in a Telegram `bot_command` entity, or
      the `@` that introduces a bot's username after it. */
  predicate IsCommandChar(c: char) {
    ('a' <= c <= 'z') || ('A' <= c <= 'Z') || IsDigit(c) || c == '_' || c == '@'
  }

  /** The messages Telegraf's `bot.start` takes: the `/start` command at the head of the
      text, alone or followed by anything that cannot continue the command name (a space and
      a payload, a line break). */
  predicate IsStartCommand(raw: string) {
    StartsWith(raw, "/start") && (|raw| == 6 || !IsCommandChar(raw[6]))
  }

  /** The bare command and the command with a payload start the bot; a longer command name,
      or the word without the slash, does not. */
  lemma StartCommandForms()
    ensures IsStartCommand("/start")
    ensures IsStartCommand("/start promo")
    ensures IsStartCommand("/start\nhello")
    ensures !IsStartCommand("/started")
    ensures !IsStartCommand("/start_now")
    ensures !IsStartCommand("start")
    ensures !IsStartCommand("/")
  {
    assert "/start promo"[..6] == "/start";
    assert "/start\nhello"[..6] == "/start";
    assert "/started"[6] == 'e';
    assert "/start_now"[6] == '_';
    assert "start"[0] != "/start"[0];
  }

  // ---------------------------------------------------------------------------
  // Selection keyboard and callback payloads
  // ---------------------------------------------------------------------------

  const SelectPrefix: string := "select_"
  const PickedMark: string := "✅"
  const UnpickedMark: string := "➕"

  /** The callback payload of the button for candidate `index`: `select_${index}`. */
  function SelectPayload(index: nat): string {
    SelectPrefix + NatToString(index)
  }

  /** The longest run of digits at the start of `s`. */
  function DigitRun(s: string): (r: string)
    ensures |r| <= |s| && r == s[..|r|] && AllDigits(r)
    ensures |r| == |s| || !IsDigit(s[|r|])
  {
    if s != [] && IsDigit(s[0]) then [s[0]] + DigitRun(s[1..]) else []
  }

  /** The digits of the leftmost match of `/select_\d+/` in a payload, if any. */
  function SelectMatch(payload: string): (r: Option<string>)
    ensures r.Some? ==> r.value != [] && AllDigits(r.value)
    decreases |payload|
  {
    if |payload| <= |SelectPrefix| then None
    else if StartsWith(payload, SelectPrefix) && IsDigit(payload[|SelectPrefix|]) then
      Some(DigitRun(payload[|SelectPrefix|..]))
    else SelectMatch(payload[1..])
  }

  /** `select_` followed by a digit starts at position `i` of the payload. */
  predicate SelectAt(payload: string, i: nat) {
    OccursAt(payload, SelectPrefix, i) && i + |SelectPrefix| < |payload| && IsDigit(payload[i + |SelectPrefix|])
  }

  /** Moving one character into the payload moves every occurrence one place back. */
  lemma SelectAtShift(payload: string, j: nat)
    requires payload != []
    ensures SelectAt(payload[1..], j) <==> SelectAt(payload, j + 1)
    ensures SelectAt(payload[1..], j) ==>
      payload[1..][j + |SelectPrefix|..] == payload[j + 1 + |SelectPrefix|..]
  {
    if j + |SelectPrefix| <= |payload| - 1 {
      assert payload[1..][j..j + |SelectPrefix|] == payload[j + 1..j + 1 + |SelectPrefix|];
    }
  }

  /** The regular expression `/select_\d+/` finds a match exactly when `select_` followed by a
      digit occurs somewhere in the payload; the match is the leftmost such occurrence, with
      all the digits that follow it. */
  lemma {:induction false} SelectMatchLeftmost(payload: string)
    ensures SelectMatch(payload).None? <==> forall i :: 0 <= i < |payload| ==> !SelectAt(payload, i)
    ensures SelectMatch(payload).Some? ==>
      exists i :: 0 <= i < |payload| && SelectAt(payload, i)
        && (forall j :: 0 <= j < i ==> !SelectAt(payload, j))
        && SelectMatch(payload).value == DigitRun(payload[i + |SelectPrefix|..])
    decreases |payload|
  {
    if |payload| <= |SelectPrefix| {
    } else if StartsWith(payload, SelectPrefix) && IsDigit(payload[|SelectPrefix|]) {
      assert payload[0..|SelectPrefix|] == payload[..|SelectPrefix|];
      assert SelectAt(payload, 0);
    } else {
      assert payload[0..|SelectPrefix|] == payload[..|SelectPrefix|];
      assert !SelectAt(payload, 0);
      var rest := payload[1..];
      SelectMatchLeftmost(rest);
      forall j | 0 <= j < |rest|
        ensures SelectAt(rest, j) <==> SelectAt(payload, j + 1)
      {
        SelectAtShift(payload, j);
      }
      if SelectMatch(rest).Some? {
        var i :| 0 <= i < |rest| && SelectAt(rest, i)
          && (forall j :: 0 <= j < i ==> !SelectAt(rest, j))
          && SelectMatch(rest).value == DigitRun(rest[i + |SelectPrefix|..]);
        SelectAtShift(payload, i);
        forall j | 0 <= j < i + 1
          ensures !SelectAt(payload, j)
        {
          if j > 0 {
            SelectAtShift(payload, j - 1);
          }
        }
        assert SelectAt(payload, i + 1);
      } else {
        forall i | 0 <= i < |payload|
          ensures !SelectAt(payload, i)
        {
          if i > 0 {
            SelectAtShift(payload, i - 1);
          }
        }
      }
    }
  }

  /** The candidate index a callback payload names: `Number(match[0].split('_')[1])`. */
  function ParseSelectIndex(payload: string): Option<nat> {
    match SelectMatch(payload)
    case None => None
    case Some(digits) => Some(DecimalValue(digits))
  }

  lemma {:induction false} DigitRunOfDigits(s: string)
    requires AllDigits(s)
    ensures DigitRun(s) == s
  {
    if s != [] {
      DigitRunOfDigits(s[1..]);
    }
  }

  /** The payload of button `index` parses back to `index`. */
  lemma PayloadRoundTrip(index: nat)
    ensures ParseSelectIndex(SelectPayload(index)) == Some(index)
  {
    var digits := NatToString(index);
    var p := SelectPayload(index);
    assert p[..|SelectPrefix|] == SelectPrefix;
    assert p[|SelectPrefix|..] == digits;
    assert p[|SelectPrefix|] == digits[0];
    DigitRunOfDigits(digits);
    DecimalRoundTrip(index);
  }

  function Mark(picked: bool): string {
    if picked then PickedMark else UnpickedMark
  }

  /** `buildSelectionKeyboard(personas, selectedIndexes)`: one button per candidate. */
  function SelectionKeyboard(personas: seq<Persona>, selected: seq<nat>): (kb: seq<Button>)
    ensures |kb| == |personas|
  {
    seq(|personas|, i requires 0 <= i < |personas| =>
      Button(Mark(i in selected) + " " + personas[i].name, SelectPayload(i)))
  }

  /** Button `i` names candidate `i`, carries a payload that parses back to `i`, and is
      marked `✅` exactly when `i` is among the selected indexes and `➕` otherwise. */
  lemma KeyboardButton(personas: seq<Persona>, selected: seq<nat>, i: nat)
    requires i < |personas|
    ensures var b := SelectionKeyboard(personas, selected)[i];
      && ParseSelectIndex(b.payload) == Some(i)
      && EndsWith(b.text, " " + personas[i].name)
      && (StartsWith(b.text, PickedMark) <==> i in selected)
      && (StartsWith(b.text, UnpickedMark) <==> i !in selected)
  {
    var b := SelectionKeyboard(personas, selected)[i];
    PayloadRoundTrip(i);
    var m := Mark(i in selected);
    assert b.text == m + (" " + personas[i].name);
    assert b.text[..1] == m;
    assert PickedMark != UnpickedMark;
  }

  // ---------------------------------------------------------------------------
  // Persona list
  // ---------------------------------------------------------------------------

  function Localized(language: string, ru: string, en: string): string {
    if language == "ru" then ru else en
  }

  /** `[first, second].filter(Boolean).join(' ')`: empty only when both parts are, and
      otherwise begins with the first part and ends with the second when they are present. */
  function JoinPresent(first: string, second: string): (r: string)
    ensures r == "" <==> first == "" && second == ""
    ensures first != "" ==> StartsWith(r, first)
    ensures second != "" ==> EndsWith(r, second)
    ensures first != "" && second != "" ==> |r| == |first| + 1 + |second| && r[|first|] == ' '
    ensures second == "" ==> r == first
    ensures first == "" ==> r == second
    ensures first != "" && second != "" ==> r == first + " " + second
  {
    if first != "" && second != "" then
      ConcatEnds(first + " ", second);
      StartsWithExtended(first, " " + second, "");
      assert first + " " + second == first + (" " + second);
      first + " " + second
    else if first != "" then
      ConcatEnds(first, "");
      first
    else
      ConcatEnds("", second);
      second
  }

  /** The number and name that open a persona's entry in the list. */
  function PersonaHead(p: Persona, index: nat): string {
    NatToString(index + 1) + ". " + p.name
  }

  /** One entry of the persona list: number and name, and, unless both are blank, ` - `
      followed by the reason as a sentence and the trimmed headline. */
  function PersonaListItem(p: Persona, index: nat): (r: string)
    ensures StartsWith(r, PersonaHead(p, index))
    ensures r == PersonaHead(p, index) <==> Trim(p.reason) == "" && Trim(p.headline) == ""
    ensures Trim(p.reason) != "" ==> StartsWith(r, PersonaHead(p, index) + " - " + EnsureSentence(p.reason))
    ensures Trim(p.headline) != "" ==> EndsWith(r, Trim(p.headline))
    ensures Trim(p.reason) != "" && Trim(p.headline) == ""
            ==> r == PersonaHead(p, index) + " - " + EnsureSentence(p.reason)
    ensures Trim(p.reason) == "" && Trim(p.headline) != ""
            ==> r == PersonaHead(p, index) + " - " + Trim(p.headline)
    ensures Trim(p.reason) != "" && Trim(p.headline) != ""
            ==> r == PersonaHead(p, index) + " - " + EnsureSentence(p.reason) + " " + Trim(p.headline)
  {
    var head := PersonaHead(p, index);
    var e := EnsureSentence(p.reason);
    var h := Trim(p.headline);
    ItemShape(head, e, h);
    ItemText(head, e, h)
  }

  /** An entry with the given head, reason sentence and headline. */
  function ItemText(head: string, e: string, h: string): string {
    var details := JoinPresent(e, h);
    if details != "" then head + " - " + details else head
  }

  lemma ItemShape(head: string, e: string, h: string)
    ensures var r := ItemText(head, e, h);
      && StartsWith(r, head)
      && (r == head <==> e == "" && h == "")
      && (e != "" ==> StartsWith(r, head + " - " + e))
      && (h != "" ==> EndsWith(r, h))
      && (e != "" && h == "" ==> r == head + " - " + e)
      && (e == "" && h != "" ==> r == head + " - " + h)
      && (e != "" && h != "" ==> r == head + " - " + e + " " + h)
  {
    var details := JoinPresent(e, h);
    if details != "" {
      var r := head + " - " + details;
      ConcatEnds(head, " - " + details);
      assert r == (head + " - ") + details;
      if e != "" {
        StartsWithExtended(head + " - ", details, e);
      }
      if h != "" {
        EndsWithExtended(head + " - ", details, h);
      }
      if e != "" && h != "" {
        assert head + " - " + (e + " " + h) == head + " - " + e + " " + h;
      }
    } else {
      assert head[..|head|] == head;
    }
  }

  /** The sentence that opens the persona list. */
  function PersonaListIntro(language: string): string {
    Localized(language,
      "Вот пять экспертов, которые лучше всего подойдут к вашей ситуации. Выберите трёх с помощью кнопок:",
      "Here are five experts tailored to your situation. Please pick three using the buttons below:")
  }

  /** The entries of the persona list, one per persona, numbered from one. */
  function PersonaListItems(personas: seq<Persona>): (items: seq<string>)
    ensures |items| == |personas|
    ensures forall i :: 0 <= i < |personas| ==> items[i] == PersonaListItem(personas[i], i)
  {
    seq(|personas|, i requires 0 <= i < |personas| => PersonaListItem(personas[i], i))
  }

  /** An intro, a blank line, and entries separated by blank lines. */
  function ListMessage(intro: string, items: seq<string>): (r: string)
    ensures StartsWith(r, intro + "\n\n")
  {
    ConcatEnds(intro + "\n\n", Join(items, "\n\n"));
    intro + "\n\n" + Join(items, "\n\n")
  }

  /** Every entry appears in the message. */
  lemma ListMessageContains(intro: string, items: seq<string>, i: nat)
    requires i < |items|
    ensures Contains(ListMessage(intro, items), items[i])
  {
    JoinContainsPart(items, "\n\n", i);
    ContainsAfter(intro + "\n\n", Join(items, "\n\n"), items[i]);
  }

  /** The entries come in order, each after a blank line: the first right after the intro's
      blank line, and each further one after the message so far. */
  lemma ListMessageSnoc(intro: string, items: seq<string>, item: string)
    ensures ListMessage(intro, [item]) == intro + "\n\n" + item
    ensures items != [] ==> ListMessage(intro, items + [item]) == ListMessage(intro, items) + "\n\n" + item
  {
    if items != [] {
      JoinSnoc(items, item, "\n\n");
    }
  }

  /** `buildPersonaListMessage(personas, languageCode)`. */
  function PersonaListMessage(personas: seq<Persona>, language: string): string {
    ListMessage(PersonaListIntro(language), PersonaListItems(personas))
  }

  /** The persona list opens with the intro in the user's language, and every persona's
      entry appears in it. */
  lemma PersonaListed(personas: seq<Persona>, language: string, i: nat)
    requires i < |personas|
    ensures StartsWith(PersonaListMessage(personas, language), PersonaListIntro(language) + "\n\n")
    ensures Contains(PersonaListMessage(personas, language), PersonaListItem(personas[i], i))
  {
    var items := PersonaListItems(personas);
    assert items[i] == PersonaListItem(personas[i], i);
    ListMessageContains(PersonaListIntro(language), items, i);
  }

  // ---------------------------------------------------------------------------
  // Fixed messages
  // ---------------------------------------------------------------------------

  const Greeting: string := Join([
    "Привет! Я помогу собрать персональный Совет директоров.",
    "Опиши, пожалуйста, свою жизненную, рабочую или бизнесовую ситуацию:",
    "• Контекст и цель",
    "• Какие возможности/ограничения есть",
    "• Чего хочешь добиться"], "\n")

  const SelectionUnavailable: string := "Сейчас выбор недоступен"
  const InvalidChoice: string := "Некорректный выбор"

  function SlotsLeftText(language: string, left: nat): string {
    Localized(language,
      "Отлично! Осталось выбрать " + NatToString(left) + " из 3.",
      "Great! " + NatToString(left) + " slots left.")
  }

  function BoardReadyText(language: string): string {
    Localized(language,
      "Совет сформирован! Скоро вы получите его мнение...",
      "Your board is assembled! You will receive its perspective shortly...")
  }

  function AnswerFailedText(language: string): string {
    Localized(language,
      "Совету не удалось сформировать ответ. Попробуйте задать вопрос иначе.",
      "The board could not generate a response. Please try rephrasing.")
  }

  function SelectionReminderText(language: string): string {
    Localized(language,
      "Пожалуйста, выберите трёх экспертов с помощью кнопок ниже.",
      "Please select three experts using the buttons below.")
  }

  function DemoOverText(language: string): string {
    Localized(language,
      "Демо-режим завершён. Мы свяжемся с вами для продолжения.",
      "Demo mode finished. We will contact you about the full version.")
  }

  function AnalyzingText(language: string): string {
    Localized(language,
      "Анализирую ситуацию и подбираю экспертов...",
      "Analyzing your situation and selecting the best experts...")
  }

  function PersonasFailedText(language: string): string {
    Localized(language,
      "Не удалось подобрать экспертов. Попробуйте описать ситуацию ещё раз.",
      "Failed to select experts. Please describe your situation again.")
  }

  function FarewellText(language: string): string {
    Localized(language,
      "Это был 10-й ответ — демо завершено. Спасибо за доверие! Мы свяжемся с вами для продолжения.",
      "That was the 10th response — the demo is complete. Thank you! We will reach out for the full version.")
  }

  /** `buildClarificationPrompt(language)` */
  function ClarificationPrompt(language: string): string {
    if language == "ru" then
      Join([
        "Запрос пока слишком общий. Чтобы Совет дал конкретные шаги, уточни, пожалуйста:",
        "• в какой сфере или проекте ты работаешь",
        "• какой результат нужен (цифры, сроки, формат)",
        "• какие ресурсы или ограничения есть (деньги, время, команда)",
        "",
        "Например: «Хочу выйти на 3000 € в месяц за счёт бизнес-коучинга или художественной фотосъёмки, есть 10 часов в неделю и база из 200 подписчиков»."], "\n")
    else
      Join([
        "Your request is very broad. To get actionable advice, please clarify:",
        "• the context or project you are working on",
        "• the target outcome (numbers, timeframe, format)",
        "• resources or constraints (budget, time, team)",
        "",
        "Example: “I want to reach €3k/month from AI coaching, have 10 hours weekly and a list of 200 subscribers.”"], "\n")
  }

  // ---------------------------------------------------------------------------
  // Administrator hand-off
  // ---------------------------------------------------------------------------

  function TranscriptLine(e: LogEntry, index: nat): string {
    "[" + NatToString(index + 1) + "] " + (if e.role == User then "User" else "Bot") + ": " + e.text
  }

  /** The transcript document: every log entry, numbered from 1, separated by blank lines. */
  function Transcript(log: seq<LogEntry>): string {
    Join(seq(|log|, i requires 0 <= i < |log| => TranscriptLine(log[i], i)), "\n\n")
  }

  /** Appending an entry appends exactly its line, numbered after the others. */
  lemma TranscriptSnoc(log: seq<LogEntry>, e: LogEntry)
    requires log != []
    ensures Transcript(log + [e]) == Transcript(log) + "\n\n" + TranscriptLine(e, |log|)
  {
    var all := log + [e];
    var lines := seq(|all|, i requires 0 <= i < |all| => TranscriptLine(all[i], i));
    var first := seq(|log|, i requires 0 <= i < |log| => TranscriptLine(log[i], i));
    assert lines == first + [TranscriptLine(e, |log|)];
    JoinSnoc(first, TranscriptLine(e, |log|), "\n\n");
  }

  /** The user line of the administrator's summary: the first and last names joined by a
      space, or `Без имени` when both are empty. */
  function AdminUserLine(first: string, last: string): (line: string)
    ensures StartsWith(line, "Пользователь: ")
    ensures first == "" && last == "" ==> line == "Пользователь: Без имени"
    ensures first != "" ==> StartsWith(line, "Пользователь: " + first)
    ensures last != "" ==> EndsWith(line, last)
    ensures first != "" || last != "" ==> line == "Пользователь: " + JoinPresent(first, last)
  {
    var joined := JoinPresent(first, last);
    var userName := if joined != "" then joined else "Без имени";
    ConcatEnds("Пользователь: ", userName);
    assert first != "" ==> StartsWith("Пользователь: " + userName, "Пользователь: " + first) by {
      if first != "" { StartsWithExtended("Пользователь: ", userName, first); }
    }
    assert last != "" ==> EndsWith("Пользователь: " + userName, last) by {
      if last != "" { EndsWithExtended("Пользователь: ", userName, last); }
    }
    "Пользователь: " + userName
  }

  /** The handle line: `@` and the username, or a dash when there is none. */
  function AdminHandleLine(profile: Option<UserProfile>): (line: string)
    ensures line == "Username: —" <==> profile.None? || profile.value.username == ""
    ensures profile.Some? && profile.value.username != "" ==> line == "Username: @" + profile.value.username
  {
    if profile.Some? && profile.value.username != "" then
      var line := "Username: @" + profile.value.username;
      assert line[10] == '@' != ("Username: —")[10];
      line
    else "Username: —"
  }

  /** The id line: the decimal id, or `undefined` when there is no profile. */
  function AdminIdLine(profile: Option<UserProfile>): (line: string)
    ensures line == "ID: undefined" <==> profile.None?
    ensures profile.Some? ==> line == "ID: " + IntToString(profile.value.id)
  {
    if profile.Some? then
      var line := "ID: " + IntToString(profile.value.id);
      assert line[4] == IntToString(profile.value.id)[0] != ("ID: undefined")[4];
      line
    else "ID: undefined"
  }

  /** The lines of the summary sent to the administrator. With no profile, the optional chains
      give an unnamed user, no handle and the id `undefined`. */
  function AdminSummaryLines(profile: Option<UserProfile>, messagePairs: nat): (lines: seq<string>)
    ensures |lines| == 5 && lines[0] == "Демо-режим завершён."
    ensures StartsWith(lines[1], "Пользователь: ")
    ensures profile.None? || (profile.value.firstName == "" && profile.value.lastName == "")
            ==> lines[1] == "Пользователь: Без имени"
    ensures profile.Some? && profile.value.firstName != ""
            ==> StartsWith(lines[1], "Пользователь: " + profile.value.firstName)
    ensures profile.Some? && profile.value.lastName != "" ==> EndsWith(lines[1], profile.value.lastName)
    ensures lines[2] == "Username: —" <==> profile.None? || profile.value.username == ""
    ensures profile.Some? && profile.value.username != "" ==> lines[2] == "Username: @" + profile.value.username
    ensures profile.Some? && (profile.value.firstName != "" || profile.value.lastName != "")
            ==> lines[1] == "Пользователь: " + JoinPresent(profile.value.firstName, profile.value.lastName)
    ensures lines[3] == "ID: undefined" <==> profile.None?
    ensures profile.Some? ==> lines[3] == "ID: " + IntToString(profile.value.id)
    ensures lines[4] == "Сообщений в демо: " + NatToString(messagePairs)
  {
    var first := if profile.Some? then profile.value.firstName else "";
    var last := if profile.Some? then profile.value.lastName else "";
    [
      "Демо-режим завершён.",
      AdminUserLine(first, last),
      AdminHandleLine(profile),
      AdminIdLine(profile),
      "Сообщений в демо: " + NatToString(messagePairs)]
  }

  /** The summary sent to the administrator: its lines joined by line breaks. */
  function AdminSummary(profile: Option<UserProfile>, messagePairs: nat): string {
    Join(AdminSummaryLines(profile, messagePairs), "\n")
  }

  // ---------------------------------------------------------------------------
  // The presentation as one value
  // ---------------------------------------------------------------------------

  /** Everything the dispatcher renders for the user or the administrator (every message
      text, keyed by language where the bot localises it, the selection keyboard and the
      transcript document), together with the test that decides whether a question is too
      vague to put to the board. The dispatcher is stated over any presentation; the bot's
      own is `BotPresentation`, whose test is `NeedsClarification`. */
  datatype Presentation = Presentation(
    greeting: string,
    selectionUnavailable: string,
    invalidChoice: string,
    slotsLeft: (string, nat) -> string,
    boardReady: string -> string,
    answerFailed: string -> string,
    selectionReminder: string -> string,
    demoOver: string -> string,
    analyzing: string -> string,
    personasFailed: string -> string,
    farewell: string -> string,
    vague: string -> bool,
    clarification: string -> string,
    personaList: (seq<Persona>, string) -> string,
    keyboard: (seq<Persona>, seq<nat>) -> seq<Button>,
    adminSummary: (Option<UserProfile>, nat) -> string,
    transcript: seq<LogEntry> -> string)

  /** This bot's presentation. */
  const BotPresentation: Presentation := Presentation(
    Greeting, SelectionUnavailable, InvalidChoice, SlotsLeftText, BoardReadyText,
    AnswerFailedText, SelectionReminderText, DemoOverText, AnalyzingText, PersonasFailedText,
    FarewellText, NeedsClarification, ClarificationPrompt, PersonaListMessage, SelectionKeyboard, AdminSummary, Transcript)
}

/** Worked examples of the clarification heuristic. */
module ClarificationExamples {
  import opened Text
  import opened BotText

  /** Example: an empty text is vague. */
  lemma EmptyIsVague()
    ensures NeedsClarification("")
  {
  }

  /** "помоги" is already normalised and matches a broad pattern. */
  lemma PleaIsBroad()
    ensures IsBroad(Normalize("помоги"))
  {
    var help := "помоги";
    TrimmedIsFixed(help);
    assert Lower(help) == help;
    assert OccursAt(help, "помоги", 0);
  }

  /** Example: a bare plea for help is vague, as it matches a broad pattern. */
  lemma PleaIsVague()
    ensures NeedsClarification("помоги")
  {
    PleaIsBroad();
  }

  lemma WhatToDoTrimmed()
    ensures Trim("Что делать?") == "Что делать?"
  {
    TrimmedIsFixed("Что делать?");
  }

  lemma WhatToDoLowered()
    ensures Lower("Что делать?") == "что делать?"
  {
  }

  lemma WhatToDoNormalised()
    ensures Normalize("Что делать?") == "что делать?"
  {
    WhatToDoTrimmed();
    WhatToDoLowered();
  }

  /** "Что делать?" lower-cases to a text that starts with a broad pattern. */
  lemma WhatToDoIsBroad()
    ensures IsBroad(Normalize("Что делать?"))
  {
    WhatToDoNormalised();
    assert OccursAt("что делать?", "что делать", 0);
  }

  /** Example: "Что делать?" is vague although it has punctuation, because once lower-cased
      it matches a broad pattern. */
  lemma WhatToDoIsVague()
    ensures NeedsClarification("Что делать?")
  {
    WhatToDoIsBroad();
  }

  lemma FiguresQuestionTrimmed()
    ensures Trim("AI coaching 10 hours weekly") == "AI coaching 10 hours weekly"
  {
    TrimmedIsFixed("AI coaching 10 hours weekly");
  }

  lemma FiguresQuestionLowered()
    ensures Lower("AI coaching 10 hours weekly") == "ai coaching 10 hours weekly"
  {
  }

  lemma FiguresQuestionNormalised()
    ensures Normalize("AI coaching 10 hours weekly") == "ai coaching 10 hours weekly"
  {
    FiguresQuestionTrimmed();
    FiguresQuestionLowered();
  }

  /** Characters that "ai coaching 10 hours weekly" lacks. */
  lemma FiguresQuestionLacksCyrillic()
    ensures var n := "ai coaching 10 hours weekly"; 'з' !in n && 'ч' !in n && 'д' !in n && 'п' !in n
  {
  }

  lemma FiguresQuestionLacksLatin()
    ensures var n := "ai coaching 10 hours weekly"; 'p' !in n && 'd' !in n && 'f' !in n
  {
  }

  /** Each broad pattern has a character that "ai coaching 10 hours weekly" lacks. */
  lemma FiguresQuestionNotBroad()
    ensures !IsBroad("ai coaching 10 hours weekly")
  {
    var n := "ai coaching 10 hours weekly";
    FiguresQuestionLacksCyrillic();
    FiguresQuestionLacksLatin();
    MissingCharNotContained(n, "заработ много денег", 'з');
    MissingCharNotContained(n, "заработать много денег", 'з');
    MissingCharNotContained(n, "что делать", 'ч');
    MissingCharNotContained(n, "что посоветуешь", 'ч');
    MissingCharNotContained(n, "дай совет", 'д');
    MissingCharNotContained(n, "помоги", 'п');
    MissingCharNotContained(n, "i need help", 'p');
    MissingCharNotContained(n, "what should i do", 'd');
    MissingCharNotContained(n, "i feel lost", 'f');
    MissingCharNotContained(n, "help me", 'p');
  }

  lemma FiguresQuestionShape()
    ensures var n := Normalize("AI coaching 10 hours weekly"); !IsBroad(n) && HasDigit(n)
  {
    FiguresQuestionNormalised();
    FiguresQuestionNotBroad();
    assert IsDigit("ai coaching 10 hours weekly"[12]);
  }

  /** Example: a short question with figures is specific enough. */
  lemma FiguresQuestionIsSpecific()
    ensures !NeedsClarification("AI coaching 10 hours weekly")
  {
    FiguresQuestionShape();
  }

  /** None of the characters that `IsBroad` relies on below for the next example: `о`, `d`,
      `p`, `l`. */
  predicate LacksBroadMarks(n: string) {
    'о' !in n && 'd' !in n && 'p' !in n && 'l' !in n
  }

  /** The request "I want to reach €3k/month from AI coaching with 10 hours weekly", written
      in pieces of eight characters so that each step of the proof below is about one short
      piece. */
  function Request(): string {
    "I want t" + "o reach " + "€3k/mont" + "h from A" + "I coachi" + "ng with " + "10 hours" + " week" + "ly"
  }

  /** Each piece before the final `ly`, lower-cased, and without the marks. */
  lemma RequestPiece0()
    ensures Lower("I want t") == "i want t" && LacksBroadMarks("i want t")
  {
  }

  lemma RequestPiece1()
    ensures Lower("o reach ") == "o reach " && LacksBroadMarks("o reach ")
  {
  }

  lemma RequestPiece2()
    ensures Lower("€3k/mont") == "€3k/mont" && LacksBroadMarks("€3k/mont")
  {
  }

  lemma RequestPiece3()
    ensures Lower("h from A") == "h from a" && LacksBroadMarks("h from a")
  {
  }

  lemma RequestPiece4()
    ensures Lower("I coachi") == "i coachi" && LacksBroadMarks("i coachi")
  {
  }

  lemma RequestPiece5()
    ensures Lower("ng with ") == "ng with " && LacksBroadMarks("ng with ")
  {
  }

  lemma RequestPiece6()
    ensures Lower("10 hours") == "10 hours" && LacksBroadMarks("10 hours")
  {
  }

  lemma RequestPiece7()
    ensures Lower(" week") == " week" && LacksBroadMarks(" week")
  {
  }

  /** Lower-casing works piece by piece, so two texts without the marks join into one. */
  lemma LacksAppend(a: string, b: string)
    requires LacksBroadMarks(Lower(a)) && LacksBroadMarks(Lower(b))
    ensures LacksBroadMarks(Lower(a + b))
  {
    LowerConcat(a, b);
  }

  /** The request without its last two characters `ly` lacks the marks once lower-cased. */
  lemma RequestHeadLacks()
    ensures LacksBroadMarks(Lower("I want t" + "o reach " + "€3k/mont" + "h from A" + "I coachi" + "ng with " + "10 hours" + " week"))
  {
    var h := "I want t";
    RequestPiece0();
    RequestPiece1();
    LacksAppend(h, "o reach ");
    h := h + "o reach ";
    RequestPiece2();
    LacksAppend(h, "€3k/mont");
    h := h + "€3k/mont";
    RequestPiece3();
    LacksAppend(h, "h from A");
    h := h + "h from A";
    RequestPiece4();
    LacksAppend(h, "I coachi");
    h := h + "I coachi";
    RequestPiece5();
    LacksAppend(h, "ng with ");
    h := h + "ng with ";
    RequestPiece6();
    LacksAppend(h, "10 hours");
    h := h + "10 hours";
    RequestPiece7();
    LacksAppend(h, " week");
    h := h + " week";
  }

  /** A text that lacks the marks and is followed by `ly` matches no broad pattern: each
      pattern but one needs a missing character, and "i feel lost" needs a second `l` three
      places after its first, where the text has already ended. */
  lemma MarksExcludeBroad(x: string)
    requires LacksBroadMarks(x)
    ensures !IsBroad(x + "ly")
  {
    var n := x + "ly";
    MissingCharNotContained(n, "заработ много денег", 'о');
    MissingCharNotContained(n, "заработать много денег", 'о');
    MissingCharNotContained(n, "что делать", 'о');
    MissingCharNotContained(n, "что посоветуешь", 'о');
    MissingCharNotContained(n, "дай совет", 'о');
    MissingCharNotContained(n, "помоги", 'о');
    MissingCharNotContained(n, "i need help", 'p');
    MissingCharNotContained(n, "what should i do", 'd');
    NotContainedNearEnd(x, "ly", "i feel lost", 7);
    MissingCharNotContained(n, "help me", 'p');
  }

  /** Trimming leaves the request alone and lower-casing turns its last two characters into
      `ly` behind a text without the marks. */
  lemma RequestNormalised()
    ensures Normalize(Request()) == Lower("I want t" + "o reach " + "€3k/mont" + "h from A" + "I coachi" + "ng with " + "10 hours" + " week") + "ly"
  {
    var x := "I want t" + "o reach " + "€3k/mont" + "h from A" + "I coachi" + "ng with " + "10 hours" + " week";
    assert Request() == x + "ly";
    assert Request()[0] == 'I' && Request()[|Request()| - 1] == 'y';
    TrimmedIsFixed(Request());
    LowerConcat(x, "ly");
    assert Lower("ly") == "ly";
  }

  /** The request's eighteenth character is the digit `3` of `€3k`. */
  lemma RequestHasDigit()
    ensures HasDigit(Request())
  {
    assert IsDigit(Request()[17]);
  }

  /** Example: "I want to reach €3k/month from AI coaching with 10 hours weekly" is specific
      enough: it matches no broad pattern and has digits. */
  lemma RequestIsSpecific()
    ensures !NeedsClarification(Request())
  {
    RequestNormalised();
    RequestHeadLacks();
    MarksExcludeBroad(Lower("I want t" + "o reach " + "€3k/mont" + "h from A" + "I coachi" + "ng with " + "10 hours" + " week"));
    RequestHasDigit();
    NeedsClarificationCases(Request());
  }
}
