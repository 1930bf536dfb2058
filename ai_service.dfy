/**
 * `AiService.analyzeEmail`: fill a fixed prompt template with the sender,
 * recipient, subject and body of a message, ask the chat model once, and
 * return its reply verbatim, or an error text when the call throws.
 */
module AiService {
  import opened Wrappers
  import opened Strings
  import opened Email

  /** A prompt template with four `%s` slots: the fixed texts around the
      sender, the recipient, the subject and the body. */
  datatype Template = Template(head: string, beforeRecipient: string, beforeSubject: string,
                               beforeBody: string, tail: string)

  /** Fill the four slots, in order. */
  function Fill(t: Template, from: string, to: string, subject: string, body: string): string {
    t.head + (from + (t.beforeRecipient + (to + (t.beforeSubject + (subject + (t.beforeBody + (body + t.tail)))))))
  }

  /** The template text up to the sender (the text block with its
      incidental indentation removed). */
  const PromptHead: string :=
    "Ты — интеллектуальный ассистент, анализирующий входящие письма.\n"
    + "\n"
    + "Проанализируй следующее письмо и сделай выводы по пунктам:\n"
    + "1. Краткое содержание письма (в 3 предложениях)\n"
    + "2. Основная цель письма (запрос, жалоба, предложение, реклама и т.д.)\n"
    + "3. Тональность письма (дружелюбная, нейтральная, раздражённая и т.д.)\n"
    + "4. Приоритет (высокий, средний, низкий)\n"
    + "5. Рекомендуемое действие (ответить, переслать, проигнорировать и т.п.)\n"
    + "\n"
    + "Информация о письме:\n"
    + "- Отправитель: "
  /** Between the sender and the recipient. */
  const BeforeRecipient: string := "\n- Получатель: "
  /** Between the recipient and the subject. */
  const BeforeSubject: string := "\n- Тема: "
  /** Between the subject and the body. */
  const BeforeBody: string := "\n- Текст письма:\n"
  /** After the body: the requested JSON shape, and the text block's final newline. */
  const PromptTail: string :=
    "\n"
    + "\n"
    + "Ответь строго в формате JSON:\n"
    + "{\n"
    + "  \"summary\": \"...\",\n"
    + "  \"intent\": \"...\",\n"
    + "  \"tone\": \"...\",\n"
    + "  \"priority\": \"...\",\n"
    + "  \"action\": \"...\"\n"
    + "}\n"

  /** The template `analyzeEmail` formats. */
  const AnalysisTemplate: Template := Template(PromptHead, BeforeRecipient, BeforeSubject, BeforeBody, PromptTail)

  /** Prefixed to the exception message when the chat call throws. */
  const ErrorPrefix: string := "Ошибка при анализе письма: "

  /** What `chatClient.prompt(text).call().content()` does for one prompt:
      returns the content, or throws an exception whose message may be null. */
  datatype Reply = Content(text: string) | Failure(message: Option<string>)

  /** The chat model, as seen by the core: a prompt in, one reply out. */
  type ChatModel = string -> Reply

  /** `String.format(template, from, to, subject, body)`; a null property
      is rendered as `null`. */
  function Prompt(email: EmailMessage): string {
    Fill(AnalysisTemplate, JavaText(email.from), JavaText(email.to), JavaText(email.subject), JavaText(email.body))
  }

  /** `analyzeEmail`: one call to the chat model with the prompt; a thrown
      exception becomes an error text, so the operation itself never fails. */
  function AnalyzeEmail(chat: ChatModel, email: EmailMessage): string
  {
    match chat(Prompt(email))
    case Content(text) => text
    case Failure(message) => ErrorPrefix + JavaText(message)
  }

  /** Every filled template holds the four substituted values verbatim. */
  lemma FillContainsValues(t: Template, f: string, r: string, s: string, b: string)
    ensures Contains(Fill(t, f, r, s, b), f)
    ensures Contains(Fill(t, f, r, s, b), r)
    ensures Contains(Fill(t, f, r, s, b), s)
    ensures Contains(Fill(t, f, r, s, b), b)
  {
    var p := Fill(t, f, r, s, b);
    var afterB := t.tail;
    var afterS := t.beforeBody + (b + afterB);
    var afterR := t.beforeSubject + (s + afterS);
    var afterF := t.beforeRecipient + (r + afterR);
    assert p == t.head + f + afterF;
    ContainsInfix(t.head, f, afterF);
    assert p == (t.head + f + t.beforeRecipient) + r + afterR;
    ContainsInfix(t.head + f + t.beforeRecipient, r, afterR);
    assert p == (t.head + f + t.beforeRecipient + r + t.beforeSubject) + s + afterS;
    ContainsInfix(t.head + f + t.beforeRecipient + r + t.beforeSubject, s, afterS);
    assert p == (t.head + f + t.beforeRecipient + r + t.beforeSubject + s + t.beforeBody) + b + afterB;
    ContainsInfix(t.head + f + t.beforeRecipient + r + t.beforeSubject + s + t.beforeBody, b, afterB);
  }

  /** The prompt holds the sender, the recipient, the subject and the body
      verbatim (or `null` for a missing one). */
  lemma PromptContainsFields(email: EmailMessage)
    ensures Contains(Prompt(email), JavaText(email.from))
    ensures Contains(Prompt(email), JavaText(email.to))
    ensures Contains(Prompt(email), JavaText(email.subject))
    ensures Contains(Prompt(email), JavaText(email.body))
  {
    FillContainsValues(AnalysisTemplate, JavaText(email.from), JavaText(email.to), JavaText(email.subject), JavaText(email.body));
  }

  /** A filled template opens with the head and closes with the tail. */
  lemma FillFrame(t: Template, f: string, r: string, s: string, b: string)
    ensures |t.head| + |t.tail| <= |Fill(t, f, r, s, b)|
    ensures Fill(t, f, r, s, b)[..|t.head|] == t.head
    ensures Fill(t, f, r, s, b)[|Fill(t, f, r, s, b)| - |t.tail|..] == t.tail
  {
    var rest := f + (t.beforeRecipient + (r + (t.beforeSubject + (s + (t.beforeBody + b)))));
    assert Fill(t, f, r, s, b) == t.head + rest + t.tail;
  }

  /** The prompt is the fixed head, the four values with their fixed
      separators, then the fixed tail. */
  lemma PromptFrame(email: EmailMessage)
    ensures Prompt(email)[..|PromptHead|] == PromptHead
    ensures Prompt(email)[|Prompt(email)| - |PromptTail|..] == PromptTail
  {
    FillFrame(AnalysisTemplate, JavaText(email.from), JavaText(email.to), JavaText(email.subject), JavaText(email.body));
  }

  /** A message whose properties are all null still yields a prompt, and
      that prompt shows `null` where the values go. */
  lemma NullFieldsPrompt()
    ensures Contains(Prompt(NewEmailMessage), "null")
  {
    PromptContainsFields(NewEmailMessage);
  }

  predicate NoNewline(s: string) {
    forall i :: 0 <= i < |s| ==> s[i] != '\n'
  }

  /** The length of the first line of `s`: the index of its first newline,
      or `|s|` when it has none. */
  function FirstLineLength(s: string): (n: nat)
    ensures n <= |s|
  {
    if s == [] || s[0] == '\n' then 0 else 1 + FirstLineLength(s[1..])
  }

  lemma {:induction false} FirstLineOf(a: string, x: string)
    requires NoNewline(a)
    requires 0 < |x| && x[0] == '\n'
    ensures FirstLineLength(a + x) == |a|
  {
    if a != [] {
      assert (a + x)[1..] == a[1..] + x;
      FirstLineOf(a[1..], x);
    } else {
      assert a + x == x;
    }
  }

  /** Two strings free of newlines, each followed by text starting with a
      newline, are split at the same place. */
  lemma SplitAtNewline(a: string, x: string, b: string, y: string)
    requires NoNewline(a) && NoNewline(b)
    requires 0 < |x| && x[0] == '\n' && 0 < |y| && y[0] == '\n'
    requires a + x == b + y
    ensures a == b && x == y
  {
    FirstLineOf(a, x);
    FirstLineOf(b, y);
    assert a == (a + x)[..|a|];
    assert b == (b + y)[..|b|];
    assert x == (a + x)[|a|..];
    assert y == (b + y)[|b|..];
  }

  lemma DropPrefix(p: string, x: string, y: string)
    requires p + x == p + y
    ensures x == y
  {
    assert x == (p + x)[|p|..];
    assert y == (p + y)[|p|..];
  }

  lemma DropSuffix(x: string, y: string, q: string)
    requires x + q == y + q
    ensures x == y
  {
    assert x == (x + q)[..|x|];
    assert y == (y + q)[..|y|];
  }

  /** A template whose separators after the first three slots open with a
      newline keeps single-line values apart: the filled text determines
      all four values. */
  lemma {:induction false} FillDeterminesValues(t: Template, f1: string, r1: string, s1: string, b1: string,
                                                 f2: string, r2: string, s2: string, b2: string)
    requires 0 < |t.beforeRecipient| && t.beforeRecipient[0] == '\n'
    requires 0 < |t.beforeSubject| && t.beforeSubject[0] == '\n'
    requires 0 < |t.beforeBody| && t.beforeBody[0] == '\n'
    requires NoNewline(f1) && NoNewline(r1) && NoNewline(s1)
    requires NoNewline(f2) && NoNewline(r2) && NoNewline(s2)
    requires Fill(t, f1, r1, s1, b1) == Fill(t, f2, r2, s2, b2)
    ensures f1 == f2 && r1 == r2 && s1 == s2 && b1 == b2
  {
    var tb1, tb2 := t.beforeBody + (b1 + t.tail), t.beforeBody + (b2 + t.tail);
    var ts1, ts2 := t.beforeSubject + (s1 + tb1), t.beforeSubject + (s2 + tb2);
    var tr1, tr2 := t.beforeRecipient + (r1 + ts1), t.beforeRecipient + (r2 + ts2);
    DropPrefix(t.head, f1 + tr1, f2 + tr2);
    SplitAtNewline(f1, tr1, f2, tr2);
    DropPrefix(t.beforeRecipient, r1 + ts1, r2 + ts2);
    SplitAtNewline(r1, ts1, r2, ts2);
    DropPrefix(t.beforeSubject, s1 + tb1, s2 + tb2);
    SplitAtNewline(s1, tb1, s2, tb2);
    DropPrefix(t.beforeBody, b1 + t.tail, b2 + t.tail);
    DropSuffix(b1, b2, t.tail);
  }

  /** The prompt keeps the four substitutions apart and in order: when the
      sender, recipient and subject are single-line, the prompt determines
      all four rendered values. */
  lemma PromptDeterminesFields(e1: EmailMessage, e2: EmailMessage)
    requires NoNewline(JavaText(e1.from)) && NoNewline(JavaText(e1.to)) && NoNewline(JavaText(e1.subject))
    requires NoNewline(JavaText(e2.from)) && NoNewline(JavaText(e2.to)) && NoNewline(JavaText(e2.subject))
    requires Prompt(e1) == Prompt(e2)
    ensures JavaText(e1.from) == JavaText(e2.from)
    ensures JavaText(e1.to) == JavaText(e2.to)
    ensures JavaText(e1.subject) == JavaText(e2.subject)
    ensures JavaText(e1.body) == JavaText(e2.body)
  {
    FillDeterminesValues(AnalysisTemplate, JavaText(e1.from), JavaText(e1.to), JavaText(e1.subject), JavaText(e1.body),
                         JavaText(e2.from), JavaText(e2.to), JavaText(e2.subject), JavaText(e2.body));
  }

  /** Exactly one chat call is made, with the prompt: two chat models that
      answer that prompt alike give the same result. */
  lemma AnalyzeEmailAsksOnce(c1: ChatModel, c2: ChatModel, email: EmailMessage)
    requires c1(Prompt(email)) == c2(Prompt(email))
    ensures AnalyzeEmail(c1, email) == AnalyzeEmail(c2, email)
  {
  }

  /** On success the reply content is returned unchanged. */
  lemma AnalyzeEmailSuccess(chat: ChatModel, email: EmailMessage, text: string)
    requires chat(Prompt(email)) == Content(text)
    ensures AnalyzeEmail(chat, email) == text
  {
  }

  /** On failure the result is the error prefix followed by the exception
      message, so it mentions both. */
  lemma AnalyzeEmailFailure(chat: ChatModel, email: EmailMessage, message: Option<string>)
    requires chat(Prompt(email)) == Failure(message)
    ensures AnalyzeEmail(chat, email) == ErrorPrefix + JavaText(message)
    ensures Contains(AnalyzeEmail(chat, email), ErrorPrefix)
    ensures Contains(AnalyzeEmail(chat, email), JavaText(message))
  {
    ContainsInfix([], ErrorPrefix, JavaText(message));
    assert [] + ErrorPrefix + JavaText(message) == ErrorPrefix + JavaText(message);
    ContainsInfix(ErrorPrefix, JavaText(message), []);
    assert ErrorPrefix + JavaText(message) + [] == ErrorPrefix + JavaText(message);
  }
}
