# MailAssistantAI core in Dafny

This project models the mailbox-synchronisation and enrichment pipeline of
MailAssistantAI, a Spring service written in Java. The pipeline does four things:

- It connects to an IMAP store, reconnecting once when the store is down.
- It lists the INBOX and keeps the last ten messages.
- It decodes each MIME message into an `EmailMessage`. The sender and the first TO
  recipient get sentinels when absent. The body is the string content, or the
  first `text/plain` part of a multipart.
- It asks the AI service for an analysis of each message, and turns a failure
  into an error text on that message.

It also models the two pure helpers around the AI:

- `AiService.analyzeEmail`: builds the prompt from the text block and asks the
  chat model once.
- `AiAnalysisFormatter`: turns the model's JSON answer into the readable five-field
  text, or extracts its lower-cased priority.

Files:

- `wrappers.dfy`: `Option`, which stands for a Java reference that may be null.
- `strings.dfy`: the `java.lang.String` operations the core relies on:
  - `isBlank`, with Java's whitespace set;
  - `toLowerCase`;
  - `contains`;
  - how `"…" + s` and `String.format("%s", s)` render a null `s` (`JavaText`).
- `email.dfy`: the `EmailMessage` record, with its five nullable string
  properties. `EmailMessage.java` is not part of this model; its shape is taken
  from its uses in the core and the tests.
- `ai_service.dfy`: the prompt template and `AnalyzeEmail`. The chat client is a
  function parameter `ChatModel` that returns a `Reply`: either content, or a
  failure carrying the exception's message.
- `formatter.dfy`: `FormatAnalysis` and `AddField` as methods over a
  `StringBuilder` class, with the specification function `Formatted`. Also
  `ExtractPriority`. Jackson's `readTree` is a function parameter `JsonParser`
  that returns the parsed object as a map from field names to their `asText()`
  values, or `None` when it throws.
- `mail_service.dfy`: the `MailService` class. It has:
  - its `store` field;
  - a trace of connection events (`ConnectAttempt`, `InboxOpened`, `InboxClosed`);
  - the annotator as a constant field `analyze`;
  - the methods `Connect`, `DecodeMessage`, `ProcessWindow` and `FetchEmails`.

  `FetchEmails` is proved equal to the specification function `Fetch`. The lemmas
  about `Fetch` state the window, the order, the failure isolation and the
  degrade-to-empty rules. The mail server's answers are values:
  - a connection attempt (`Option<Store>`, where `None` means `getStore` threw);
  - an `Inbox` (does it open? does listing throw?);
  - raw messages, whose parts may throw when read.

Where the project's design description and the code differ, the model follows the code:

- A message whose headers or content throw while being read aborts the whole
  loop. `fetchEmails` then returns the emails gathered so far, and the folder is
  not closed, because the close is not in a `finally` block (`FetchMidLoopFailure`).
- When no plain-text part exists, the body stays null rather than empty (`DecodeBody`).
- `extractPriority` returns the empty string, not `unknown`, when `priority` is
  present but blank (`PriorityLowerCased`).

## Model

| member | source | states |
|---|---|---|
| `MailService.MailService.FetchEmails` | src/main/java/normalno/service/MailService.java:65-146 | the returned list, the new store and the appended connection events are exactly those of `Fetch` on the old store |
| `MailService.MailService.Connect` | src/main/java/normalno/service/MailService.java:44-63 | one attempt: the store is replaced by the store `getStore` returned (connected or not); when `getStore` throws, the old store is kept |
| `MailService.MailService.ProcessWindow` | src/main/java/normalno/service/MailService.java:82-136 | the loop from `max(0, n-10)` to `n` computes `Process` of the last ten messages; the failure flag says that a message threw |
| `MailService.MailService.DecodeMessage` | src/main/java/normalno/service/MailService.java:89-124 | the loop over the parts computes `Decode`: non-MIME messages are skipped, headers become sentinels, the body is decoded, and a throwing read is reported |
| `MailService.MailService.constructor` | src/main/java/normalno/service/MailService.java:32-36 | a new service has no store and no events |
| `MailService.FetchDegradesToEmpty` | src/main/java/normalno/service/MailService.java:68-75 | a dead store whose reconnection also fails gives an empty list after exactly one connection attempt |
| `MailService.FetchReconnectsOnce` | src/main/java/normalno/service/MailService.java:68-80 | a connection attempt happens if and only if the store was not live, it happens at most once and first, and the inbox is opened only on a live store |
| `MailService.FetchWindow` | src/main/java/normalno/service/MailService.java:83-89 | when every message in the window decodes, the result has `min(n, 10)` emails; email k is message `start + k` annotated, in listing order; the inbox is opened and then closed |
| `MailService.FetchFifteen` | src/test/java/normalno/service/MailServiceTest.java:98-137 | with fifteen text messages, ten emails are returned; the first carries message 5's subject and the last message 14's |
| `MailService.FetchIsReference` | src/main/java/normalno/service/MailService.java:83-136 | the fetched list equals the reference `Accepted` of the window (front-to-back, up to the first throwing message) and never exceeds ten |
| `MailService.ProcessIsReference` | src/main/java/normalno/service/MailService.java:87-136 | the loop's result equals the reference definition, and it fails if and only if some message's decoding throws |
| `MailService.FailureSticks` | src/main/java/normalno/service/MailService.java:140-145 | once a message has thrown, the messages after it change nothing |
| `MailService.ProcessLength` | src/main/java/normalno/service/MailService.java:87-89 | the loop never yields more emails than it reads messages |
| `MailService.ProcessAllDecoded` | src/main/java/normalno/service/MailService.java:87-135 | when every message decodes, email k is message k decoded and annotated, and none is dropped |
| `MailService.FetchClosesOnNormalPath` | src/main/java/normalno/service/MailService.java:138 | when no message throws, the folder is opened and then closed after the loop; an empty INBOX gives an empty list and still closes the folder |
| `MailService.FetchMidLoopFailure` | src/main/java/normalno/service/MailService.java:138-145 | a message that throws while being decoded ends the loop; the emails before it are returned and the folder is left open |
| `MailService.ProcessPopulated` | src/main/java/normalno/service/MailService.java:126-134 | every processed email has a sender and a recipient (address or sentinel) and carries the analyzer's verdict on itself as decoded |
| `MailService.FetchPopulated` | src/main/java/normalno/service/MailService.java:126-134 | every fetched email has a sender, a recipient and a non-null analysis: the analyzer's text for it, or the `Ошибка анализа письма: ` error text |
| `MailService.AnnotationIsolation` | src/main/java/normalno/service/MailService.java:126-132 | AI failures never drop, reorder or alter an email: two analyzers give the same emails, apart from their analysis |
| `MailService.AnnotateOnFailure` | src/main/java/normalno/service/MailService.java:129-131 | a failed analysis is the error prefix followed by the exception's message; `null` is written out when there is no message |
| `MailService.WithAiService` | src/main/java/normalno/service/MailService.java:126-128 | annotated through `AiService.analyzeEmail`, each email's analysis is that service's answer for the email as decoded |
| `MailService.DecodeHeaders` | src/main/java/normalno/service/MailService.java:95-109 | sender and recipient are the first address, or `Неизвестный отправитель` / `Неизвестный получатель` when the list is null or empty; the subject is copied |
| `MailService.ScanPartsFirstMatch` | src/main/java/normalno/service/MailService.java:117-123 | the scan finds a body if and only if some part is plain text, lower-cased, and no earlier part is plain or unreadable; that first match is the one taken; the scan breaks if and only if it reaches an unreadable part first |
| `MailService.DecodeBody` | src/main/java/normalno/service/MailService.java:112-124 | a string content is the body verbatim; a multipart gives the first plain part's content, or no body; any other content gives no body |
| `MailService.DecodeSinglePlainPart` | src/test/java/normalno/service/MailServiceTest.java:140-174 | a multipart with one `text/plain; charset=UTF-8` part decodes to that part's text |
| `AiService.PromptContainsFields` | src/main/java/normalno/service/AiService.java:17-45 | the prompt contains the sender, recipient, subject and body, with `null` for null fields |
| `AiService.PromptFrame` | src/main/java/normalno/service/AiService.java:18-43 | the prompt starts with the instructions and ends with the JSON answer format |
| `AiService.NullFieldsPrompt` | src/test/java/normalno/service/AiServiceTest.java:94-120 | a message with every field null yields a prompt that contains `null` |
| `AiService.PromptDeterminesFields` | src/main/java/normalno/service/AiService.java:29-44 | when sender, recipient and subject hold no line break, the prompt determines all four fields (it is injective) |
| `AiService.AnalyzeEmailAsksOnce` | src/main/java/normalno/service/AiService.java:47-48 | the result depends only on the chat model's answer to this one prompt |
| `AiService.AnalyzeEmailSuccess` | src/main/java/normalno/service/AiService.java:48 | a successful call returns the model's content unchanged |
| `AiService.AnalyzeEmailFailure` | src/main/java/normalno/service/AiService.java:49-52 | a failing call returns `Ошибка при анализе письма: ` followed by the exception's message, and contains both |
| `AiAnalysisFormatter.FormatAnalysis` | src/main/java/normalno/util/AiAnalysisFormatter.java:15-37 | null or blank input gives `Анализ недоступен`; unparsable input is returned unchanged; otherwise the result is `Formatted` of the parsed object |
| `AiAnalysisFormatter.AddField` | src/main/java/normalno/util/AiAnalysisFormatter.java:39-49 | appends `heading:\nvalue` exactly when the field is present and not blank, after a `\n\n` separator when the builder is not empty; the builder stays the join of the entries so far |
| `AiAnalysisFormatter.FormattedNothingShown` | src/test/java/normalno/util/AiAnalysisFormatterTest.java:149-171 | when no field is present and non-blank, the formatted text is empty |
| `AiAnalysisFormatter.FormattedSingleField` | src/main/java/normalno/util/AiAnalysisFormatter.java:39-49 | with a single shown field, the text is that field's entry, without a separator |
| `AiAnalysisFormatter.FormattedAllFields` | src/main/java/normalno/util/AiAnalysisFormatter.java:25-31 | with all five fields shown, the text is the five entries in order summary, intent, tone, priority, action, separated by blank lines |
| `AiAnalysisFormatter.FormattedIgnoresHidden` | src/main/java/normalno/util/AiAnalysisFormatter.java:40-42 | a missing or blank field has no effect on the text |
| `AiAnalysisFormatter.FormattedFrame` | src/main/java/normalno/util/AiAnalysisFormatter.java:43-46 | the text starts with the first shown entry and ends with the last, so there is no leading or trailing separator |
| `AiAnalysisFormatter.FormattedShowsField` | src/main/java/normalno/util/AiAnalysisFormatter.java:25-31 | every shown field appears in the text with its heading and value |
| `AiAnalysisFormatter.ExtractPriority` | src/main/java/normalno/util/AiAnalysisFormatter.java:54-68 | the result never holds an upper-case letter |
| `AiAnalysisFormatter.PriorityDefaults` | src/main/java/normalno/util/AiAnalysisFormatter.java:55-67 | null or blank input, unparsable input, or a missing `priority` give `unknown` |
| `AiAnalysisFormatter.PriorityLowerCased` | src/main/java/normalno/util/AiAnalysisFormatter.java:61-63 | a present priority is returned lower-cased |
| `AiAnalysisFormatter.PriorityHigh` | src/test/java/normalno/util/AiAnalysisFormatterTest.java:98-113 | a priority of `HIGH` is reported as `high` |
| `Strings.ToLowerIdempotent` | src/main/java/normalno/util/AiAnalysisFormatter.java:62 | lower-casing twice is lower-casing once |
| `Strings.ContainsIff` | src/main/java/normalno/service/MailService.java:119 | `contains` holds if and only if the text occurs at some index |

## Left out

- IMAP plumbing: the `Properties`, the `imaps` protocol, the host, port and
  credentials, and the 5-second timeouts. A connection attempt is a value: the
  store it yields, or nothing when `getStore` throws.
- `@PostConstruct init`: it only calls `connect`; a new service is modelled with
  no store.
- All console output and stack traces, because they do not affect results.
- An exception from `inbox.close(false)`: it is caught after the list is
  complete, so the result is the same. The events trace records the close as done.
- An exception from `getFrom`, `getRecipients` or `getSubject`: this model treats
  it like one from `getContent` (`UnreadableContent`). In each case the
  half-built email is discarded and the loop ends.
- `getContentType` returning null: a `NullPointerException` in the part scan is
  modelled as an unreadable part (`UnreadablePart`). `Multipart.getCount` and
  `getBodyPart` throwing are covered the same way.
- `Address.toString`: addresses are given already rendered as strings.
- `Strings.ToLower`: lower-cases only ASCII `A`–`Z`; Java's locale-dependent full
  Unicode `toLowerCase` is not modelled.
- Strings are sequences of Unicode scalar values, not UTF-16 code units.
- Jackson: the JSON parser is a parameter. `asText()` of non-textual nodes is
  assumed already applied.
- The chat client's `content()` returning null is not modelled; a reply is
  either text or a failure.
- `AiServise.java`, `GigaChatService.java` and the controllers are not part of
  this model.
- Concurrent calls to `fetchEmails` on one service (the shared `store` field)
  are not modelled; each call runs alone.
