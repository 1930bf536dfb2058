/**
 * `MailService.fetchEmails`: make sure the mail store is connected (one
 * reconnection attempt), read the last ten messages of the read-only
 * INBOX, decode each MIME message into an `EmailMessage`, annotate it with
 * the AI analysis, and close the folder.
 *
 * The IMAP client is abstracted to values: a store is connected or not and
 * holds one INBOX; a raw message is either not MIME or carries its headers
 * and content, with a marker where reading them throws.  The analysis call
 * is the service's `analyze` function.
 */
module MailService {
  import opened Wrappers
  import opened Strings
  import opened Email
  import AiService

  /** How many of the newest messages `fetchEmails` reads. */
  const WindowSize: nat := 10
  const UnknownSender: string := "Неизвестный отправитель"
  const UnknownRecipient: string := "Неизвестный получатель"
  /** Prefixed to the exception message when the analysis call throws. */
  const AnalysisErrorPrefix: string := "Ошибка анализа письма: "
  const PlainText: string := "text/plain"

  /** A part of a multipart body: its content type and its content as text,
      or a part whose content type or content cannot be read (it throws). */
  datatype BodyPart = BodyPart(contentType: string, content: string) | UnreadablePart

  /** What `getContent()` returns: a string, a multipart container, some
      other object, or an exception. */
  datatype Content =
    | Text(text: string)
    | Multipart(parts: seq<BodyPart>)
    | OtherContent
    | UnreadableContent

  /** An entry of `inbox.getMessages()`: a `MimeMessage` with its sender
      list, its TO recipients (null is None, each address as `toString()`
      renders it) and its subject, or any other kind of message. */
  datatype RawMessage =
    | OtherMessage
    | MimeMessage(from: Option<seq<string>>, to: Option<seq<string>>, subject: Option<string>, content: Content)

  /** The INBOX folder: whether `getFolder` and `open(READ_ONLY)` succeed,
      and the listing, None when `getMessages()` throws. */
  datatype Inbox = Inbox(opens: bool, listing: Option<seq<RawMessage>>)

  /** A mail store: whether `isConnected()` holds, and its INBOX. */
  datatype Store = Store(connected: bool, inbox: Inbox)

  /** What `aiService.analyzeEmail` does: return a text or throw an
      exception whose message may be null. */
  datatype AiOutcome = Analysis(text: string) | AiFailure(message: Option<string>)

  type Analyzer = EmailMessage -> AiOutcome

  /** The calls that change the state of the mail server connection. */
  datatype Event = ConnectAttempt | InboxOpened | InboxClosed

  // ---- specification

  /** `store != null && store.isConnected()` */
  predicate Live(store: Option<Store>) {
    store.Some? && store.value.connected
  }

  /** The store after one `connect()`: an attempt that obtains a store
      object replaces the old one whether or not it then connects; an
      attempt that fails before that leaves the old one. */
  function AfterConnect(store: Option<Store>, attempt: Option<Store>): Option<Store> {
    if attempt.Some? then attempt else store
  }

  /** The first address of a list, or the sentinel when the list is null or
      empty. */
  function FirstAddress(addresses: Option<seq<string>>, sentinel: string): string {
    if addresses.Some? && |addresses.value| > 0 then addresses.value[0] else sentinel
  }

  /** The result of scanning the parts for the first plain-text one. */
  datatype Scan = Found(body: string) | NotFound | Broken

  predicate IsPlainText(contentType: string) {
    Contains(ToLower(contentType), PlainText)
  }

  /** Scan the parts in order; stop at the first plain-text part, or at the
      first part that cannot be read. */
  function ScanParts(parts: seq<BodyPart>): Scan
    decreases |parts|
  {
    if parts == [] then NotFound
    else match parts[0]
      case UnreadablePart => Broken
      case BodyPart(contentType, content) =>
        if IsPlainText(contentType) then Found(content) else ScanParts(parts[1..])
  }

  /** Decoding one listed message: skipped when not MIME, failed when reading
      it throws, otherwise the email without analysis. */
  datatype Decoded = Skipped | Decoded(email: EmailMessage) | DecodeFailed

  /** The headers of a MIME message as `fetchEmails` sets them. */
  function Headers(m: RawMessage): EmailMessage
    requires m.MimeMessage?
  {
    NewEmailMessage.(from := Some(FirstAddress(m.from, UnknownSender)),
                     to := Some(FirstAddress(m.to, UnknownRecipient)),
                     subject := m.subject)
  }

  function Decode(m: RawMessage): Decoded {
    match m
    case OtherMessage => Skipped
    case MimeMessage(_, _, _, content) =>
      match content
      case Text(text) => Decoded(Headers(m).(body := Some(text)))
      case OtherContent => Decoded(Headers(m))
      case UnreadableContent => DecodeFailed
      case Multipart(parts) =>
        match ScanParts(parts)
        case Found(body) => Decoded(Headers(m).(body := Some(body)))
        case NotFound => Decoded(Headers(m))
        case Broken => DecodeFailed
  }

  /** The analysis stored for one outcome of the analysis call. */
  function AnalysisText(outcome: AiOutcome): string {
    match outcome
    case Analysis(text) => text
    case AiFailure(message) => AnalysisErrorPrefix + JavaText(message)
  }

  function Annotate(email: EmailMessage, analyze: Analyzer): EmailMessage {
    email.(aiAnalysis := Some(AnalysisText(analyze(email))))
  }

  /** The list accumulated over some messages, and whether a decoding
      exception ended the loop. */
  datatype Batch = Batch(emails: seq<EmailMessage>, failed: bool)

  /** The loop over `msgs`, one message at a time from the first. */
  function Process(msgs: seq<RawMessage>, analyze: Analyzer): Batch
    decreases |msgs|
  {
    if msgs == [] then Batch([], false)
    else
      var before := Process(msgs[..|msgs| - 1], analyze);
      if before.failed then before
      else match Decode(msgs[|msgs| - 1])
        case Skipped => before
        case DecodeFailed => Batch(before.emails, true)
        case Decoded(email) => Batch(before.emails + [Annotate(email, analyze)], false)
  }

  /** `Math.max(0, n - 10)` */
  function WindowStart(n: nat): nat {
    if n > WindowSize then n - WindowSize else 0
  }

  /** The messages at positions `[max(0, n - 10), n)`. */
  function Window(msgs: seq<RawMessage>): seq<RawMessage> {
    msgs[WindowStart(|msgs|)..]
  }

  /** What one `fetchEmails` call returns, the store it leaves, and the
      connection events it causes. */
  datatype Outcome = Outcome(emails: seq<EmailMessage>, store: Option<Store>, events: seq<Event>)

  /** The store `fetchEmails` works with: the current one when it is
      connected, otherwise the result of one attempt. */
  function Connected(store: Option<Store>, attempt: Option<Store>): Option<Store> {
    if Live(store) then store else AfterConnect(store, attempt)
  }

  function Fetch(store: Option<Store>, attempt: Option<Store>, analyze: Analyzer): Outcome {
    var current := Connected(store, attempt);
    var tried := if Live(store) then [] else [ConnectAttempt];
    if !Live(current) || !current.value.inbox.opens then Outcome([], current, tried)
    else match current.value.inbox.listing
      case None => Outcome([], current, tried + [InboxOpened])
      case Some(msgs) =>
        var batch := Process(Window(msgs), analyze);
        Outcome(batch.emails, current, tried + [InboxOpened] + if batch.failed then [] else [InboxClosed])
  }

  // ---- the service

  lemma ProcessSnoc(msgs: seq<RawMessage>, m: RawMessage, analyze: Analyzer)
    ensures Process(msgs + [m], analyze)
         == var before := Process(msgs, analyze);
            if before.failed then before
            else match Decode(m)
              case Skipped => before
              case DecodeFailed => Batch(before.emails, true)
              case Decoded(email) => Batch(before.emails + [Annotate(email, analyze)], false)
  {
    assert (msgs + [m])[..|msgs|] == msgs;
  }

  /** Once decoding has thrown, later messages change nothing. */
  lemma {:induction false} FailureSticks(msgs: seq<RawMessage>, k: nat, analyze: Analyzer)
    requires k <= |msgs| && Process(msgs[..k], analyze).failed
    ensures Process(msgs, analyze) == Process(msgs[..k], analyze)
    decreases |msgs| - k
  {
    if k < |msgs| {
      ProcessSnoc(msgs[..k], msgs[k], analyze);
      assert msgs[..k + 1] == msgs[..k] + [msgs[k]];
      FailureSticks(msgs, k + 1, analyze);
    } else {
      assert msgs[..k] == msgs;
    }
  }

  // ---- properties of a fetch

  /** Degrade to empty: when the store is dead and the one reconnection
      attempt leaves it dead, the result is empty and the folder is never
      opened. */
  lemma FetchDegradesToEmpty(store: Option<Store>, attempt: Option<Store>, analyze: Analyzer)
    requires !Live(store) && !Live(AfterConnect(store, attempt))
    ensures Fetch(store, attempt, analyze) == Outcome([], AfterConnect(store, attempt), [ConnectAttempt])
  {
  }

  /** At most one reconnection attempt, made exactly when the store is not
      connected at the start; the folder is only opened on a live store. */
  lemma FetchReconnectsOnce(store: Option<Store>, attempt: Option<Store>, analyze: Analyzer)
    ensures var o := Fetch(store, attempt, analyze);
      && (ConnectAttempt in o.events <==> !Live(store))
      && (forall i :: 0 < i < |o.events| ==> o.events[i] != ConnectAttempt)
      && (InboxOpened in o.events ==> Live(o.store))
  {
  }

  /** The reference reading of the loop, message by message from the
      first: the annotated decoded MIME messages in listing order, up to the
      first message whose decoding throws. */
  function Accepted(msgs: seq<RawMessage>, analyze: Analyzer): seq<EmailMessage>
    decreases |msgs|
  {
    if msgs == [] then []
    else match Decode(msgs[0])
      case Skipped => Accepted(msgs[1..], analyze)
      case DecodeFailed => []
      case Decoded(email) => [Annotate(email, analyze)] + Accepted(msgs[1..], analyze)
  }

  predicate Decodable(msgs: seq<RawMessage>) {
    forall i :: 0 <= i < |msgs| ==> !Decode(msgs[i]).DecodeFailed?
  }

  lemma {:induction false} AcceptedSnoc(msgs: seq<RawMessage>, m: RawMessage, analyze: Analyzer)
    ensures Accepted(msgs + [m], analyze)
         == if !Decodable(msgs) then Accepted(msgs, analyze)
            else match Decode(m)
              case Decoded(email) => Accepted(msgs, analyze) + [Annotate(email, analyze)]
              case _ => Accepted(msgs, analyze)
    decreases |msgs|
  {
    if msgs == [] {
      assert [] + [m] == [m];
      assert [m][1..] == [];
    } else {
      assert (msgs + [m])[0] == msgs[0];
      assert (msgs + [m])[1..] == msgs[1..] + [m];
      AcceptedSnoc(msgs[1..], m, analyze);
      assert Decodable(msgs) <==> !Decode(msgs[0]).DecodeFailed? && Decodable(msgs[1..]) by {
        if !Decode(msgs[0]).DecodeFailed? && Decodable(msgs[1..]) {
          forall i | 0 <= i < |msgs|
            ensures !Decode(msgs[i]).DecodeFailed?
          {
            if i > 0 {
              assert msgs[i] == msgs[1..][i - 1];
            }
          }
        }
        if Decodable(msgs) {
          forall i | 0 <= i < |msgs[1..]|
            ensures !Decode(msgs[1..][i]).DecodeFailed?
          {
            assert msgs[1..][i] == msgs[i + 1];
          }
        }
      }
    }
  }

  /** Order and filtering: the loop yields exactly the reference list, and
      it stops early exactly when some message fails to decode. */
  lemma {:induction false} ProcessIsReference(msgs: seq<RawMessage>, analyze: Analyzer)
    ensures Process(msgs, analyze).emails == Accepted(msgs, analyze)
    ensures Process(msgs, analyze).failed <==> !Decodable(msgs)
    decreases |msgs|
  {
    if msgs != [] {
      var init, last := msgs[..|msgs| - 1], msgs[|msgs| - 1];
      assert msgs == init + [last];
      ProcessIsReference(init, analyze);
      AcceptedSnoc(init, last, analyze);
      assert Decodable(msgs) <==> Decodable(init) && !Decode(last).DecodeFailed? by {
        if Decodable(init) && !Decode(last).DecodeFailed? {
          forall i | 0 <= i < |msgs|
            ensures !Decode(msgs[i]).DecodeFailed?
          {
            if i < |init| {
              assert msgs[i] == init[i];
            }
          }
        }
        if Decodable(msgs) {
          forall i | 0 <= i < |init|
            ensures !Decode(init[i]).DecodeFailed?
          {
            assert init[i] == msgs[i];
          }
        }
      }
    }
  }

  /** The loop never yields more emails than it reads messages. */
  lemma {:induction false} ProcessLength(msgs: seq<RawMessage>, analyze: Analyzer)
    ensures |Process(msgs, analyze).emails| <= |msgs|
    decreases |msgs|
  {
    if msgs != [] {
      ProcessLength(msgs[..|msgs| - 1], analyze);
    }
  }

  /** When every message decodes, each one gives an email, in the same
      position. */
  lemma {:induction false} ProcessAllDecoded(msgs: seq<RawMessage>, analyze: Analyzer)
    requires forall i :: 0 <= i < |msgs| ==> Decode(msgs[i]).Decoded?
    ensures var b := Process(msgs, analyze);
      && !b.failed && |b.emails| == |msgs|
      && forall k :: 0 <= k < |msgs| ==> b.emails[k] == Annotate(Decode(msgs[k]).email, analyze)
    decreases |msgs|
  {
    if msgs != [] {
      var init := msgs[..|msgs| - 1];
      assert forall i :: 0 <= i < |init| ==> init[i] == msgs[i];
      ProcessAllDecoded(init, analyze);
    }
  }

  /** Window: with a live store and an all-MIME, readable window, the result
      holds `min(n, 10)` emails and email `k` comes from message
      `max(0, n - 10) + k`; the folder is opened and closed once. */
  lemma FetchWindow(store: Option<Store>, attempt: Option<Store>, analyze: Analyzer, msgs: seq<RawMessage>)
    requires Live(Connected(store, attempt))
    requires Connected(store, attempt).value.inbox == Inbox(true, Some(msgs))
    requires forall i :: WindowStart(|msgs|) <= i < |msgs| ==> Decode(msgs[i]).Decoded?
    ensures var o := Fetch(store, attempt, analyze);
      && |o.emails| == (if |msgs| < WindowSize then |msgs| else WindowSize)
      && (forall k :: 0 <= k < |o.emails| ==>
            o.emails[k] == Annotate(Decode(msgs[WindowStart(|msgs|) + k]).email, analyze))
      && 2 <= |o.events| && o.events[|o.events| - 2..] == [InboxOpened, InboxClosed]
  {
    var w := Window(msgs);
    forall i | 0 <= i < |w|
      ensures Decode(w[i]).Decoded?
    {
      assert w[i] == msgs[WindowStart(|msgs|) + i];
    }
    ProcessAllDecoded(w, analyze);
  }

  /** With fifteen listed messages, the result holds messages 5 to 14: its
      first subject is that of message 5 and its last that of message 14. */
  lemma FetchFifteen(store: Option<Store>, attempt: Option<Store>, analyze: Analyzer, msgs: seq<RawMessage>)
    requires Live(Connected(store, attempt))
    requires Connected(store, attempt).value.inbox == Inbox(true, Some(msgs))
    requires |msgs| == 15
    requires forall i :: 0 <= i < |msgs| ==> msgs[i].MimeMessage? && msgs[i].content.Text?
    ensures var o := Fetch(store, attempt, analyze);
      && |o.emails| == 10
      && o.emails[0].subject == msgs[5].subject
      && o.emails[9].subject == msgs[14].subject
  {
    FetchWindow(store, attempt, analyze, msgs);
  }

  /** Order and filtering on a fetch: the result is the reference list of
      the window; it is never longer than the window. */
  lemma FetchIsReference(store: Option<Store>, attempt: Option<Store>, analyze: Analyzer, msgs: seq<RawMessage>)
    requires Live(Connected(store, attempt))
    requires Connected(store, attempt).value.inbox == Inbox(true, Some(msgs))
    ensures Fetch(store, attempt, analyze).emails == Accepted(Window(msgs), analyze)
    ensures |Fetch(store, attempt, analyze).emails| <= WindowSize
  {
    ProcessIsReference(Window(msgs), analyze);
    ProcessLength(Window(msgs), analyze);
  }

  /** Folder close: when nothing in the window throws, the folder is opened
      and then closed exactly once; an empty inbox gives an empty list and
      is closed too. */
  lemma FetchClosesOnNormalPath(store: Option<Store>, attempt: Option<Store>, analyze: Analyzer, msgs: seq<RawMessage>)
    requires Live(Connected(store, attempt))
    requires Connected(store, attempt).value.inbox == Inbox(true, Some(msgs))
    requires Decodable(Window(msgs))
    ensures var o := Fetch(store, attempt, analyze);
      && o.events == (if Live(store) then [] else [ConnectAttempt]) + [InboxOpened, InboxClosed]
      && (msgs == [] ==> o.emails == [])
  {
    ProcessIsReference(Window(msgs), analyze);
  }

  /** Mid-loop failure: when decoding message `k` of the window throws, the
      result is the list built from the messages before it, and the folder
      is left open. */
  lemma FetchMidLoopFailure(store: Option<Store>, attempt: Option<Store>, analyze: Analyzer, msgs: seq<RawMessage>, k: nat)
    requires Live(Connected(store, attempt))
    requires Connected(store, attempt).value.inbox == Inbox(true, Some(msgs))
    requires k < |Window(msgs)| && Decode(Window(msgs)[k]).DecodeFailed?
    ensures var o := Fetch(store, attempt, analyze);
      && o.emails == Process(Window(msgs)[..k], analyze).emails
      && InboxOpened in o.events && InboxClosed !in o.events
  {
    var w := Window(msgs);
    ProcessSnoc(w[..k], w[k], analyze);
    assert w[..k + 1] == w[..k] + [w[k]];
    FailureSticks(w, k + 1, analyze);
  }

  /** Every email of a batch has a sender and a recipient (a real address
      or a sentinel) and carries the analysis of its own decoded form. */
  lemma {:induction false} ProcessPopulated(msgs: seq<RawMessage>, analyze: Analyzer)
    ensures forall e :: e in Process(msgs, analyze).emails ==>
      && e.from.Some? && e.to.Some?
      && e.aiAnalysis == Some(AnalysisText(analyze(e.(aiAnalysis := None))))
    decreases |msgs|
  {
    if msgs != [] {
      ProcessPopulated(msgs[..|msgs| - 1], analyze);
      var m := msgs[|msgs| - 1];
      if Decode(m).Decoded? {
        assert Decode(m).email.aiAnalysis == None;
        assert Decode(m).email.(aiAnalysis := None) == Decode(m).email;
      }
    }
  }

  /** Every email a fetch returns has its sender, recipient and analysis
      set. */
  lemma FetchPopulated(store: Option<Store>, attempt: Option<Store>, analyze: Analyzer)
    ensures forall e :: e in Fetch(store, attempt, analyze).emails ==>
      && e.from.Some? && e.to.Some?
      && e.aiAnalysis == Some(AnalysisText(analyze(e.(aiAnalysis := None))))
  {
    var current := Connected(store, attempt);
    if Live(current) && current.value.inbox.opens && current.value.inbox.listing.Some? {
      ProcessPopulated(Window(current.value.inbox.listing.value), analyze);
    }
  }

  /** Annotation isolation: what the analysis call returns or throws never
      changes which messages are kept or whether the loop stops; the
      emails differ at most in their analysis. */
  lemma {:induction false} AnnotationIsolation(msgs: seq<RawMessage>, a1: Analyzer, a2: Analyzer)
    ensures var b1, b2 := Process(msgs, a1), Process(msgs, a2);
      && b1.failed == b2.failed && |b1.emails| == |b2.emails|
      && forall k :: 0 <= k < |b1.emails| ==> b1.emails[k].(aiAnalysis := None) == b2.emails[k].(aiAnalysis := None)
    decreases |msgs|
  {
    if msgs != [] {
      AnnotationIsolation(msgs[..|msgs| - 1], a1, a2);
    }
  }

  /** An analysis failure is stored as the error prefix and the exception
      message. */
  lemma AnnotateOnFailure(email: EmailMessage, analyze: Analyzer, message: Option<string>)
    requires analyze(email) == AiFailure(message)
    ensures Annotate(email, analyze).aiAnalysis == Some(AnalysisErrorPrefix + JavaText(message))
    ensures Contains(Annotate(email, analyze).aiAnalysis.value, AnalysisErrorPrefix)
    ensures Contains(Annotate(email, analyze).aiAnalysis.value, JavaText(message))
  {
    ContainsInfix([], AnalysisErrorPrefix, JavaText(message));
    assert [] + AnalysisErrorPrefix + JavaText(message) == AnalysisErrorPrefix + JavaText(message);
    ContainsInfix(AnalysisErrorPrefix, JavaText(message), []);
    assert AnalysisErrorPrefix + JavaText(message) + [] == AnalysisErrorPrefix + JavaText(message);
  }

  /** With the real `AiService` as the analysis call, nothing throws: each
      email carries `AiService.AnalyzeEmail` of itself. */
  lemma WithAiService(chat: AiService.ChatModel, store: Option<Store>, attempt: Option<Store>)
    ensures var analyze := (e: EmailMessage) => Analysis(AiService.AnalyzeEmail(chat, e));
      forall e :: e in Fetch(store, attempt, analyze).emails ==>
        e.aiAnalysis == Some(AiService.AnalyzeEmail(chat, e.(aiAnalysis := None)))
  {
    var analyze := (e: EmailMessage) => Analysis(AiService.AnalyzeEmail(chat, e));
    FetchPopulated(store, attempt, analyze);
  }

  // ---- properties of decoding

  /** Address sentinels: the sender is the first `from` address, or
      `Неизвестный отправитель` when the list is null or empty; the same for
      the first TO recipient with `Неизвестный получатель`.  The subject is
      copied and the analysis is left unset. */
  lemma DecodeHeaders(m: RawMessage)
    requires Decode(m).Decoded?
    ensures var e := Decode(m).email;
      && m.MimeMessage?
      && e.from == Some(if m.from.Some? && m.from.value != [] then m.from.value[0] else UnknownSender)
      && e.to == Some(if m.to.Some? && m.to.value != [] then m.to.value[0] else UnknownRecipient)
      && e.subject == m.subject
      && e.aiAnalysis == None
  {
  }

  /** Parts before position `k` are all readable and not plain text. */
  predicate ScannedPast(parts: seq<BodyPart>, k: nat) {
    forall j :: 0 <= j < k && j < |parts| ==> parts[j].BodyPart? && !IsPlainText(parts[j].contentType)
  }

  lemma {:induction false} ScanSkips(parts: seq<BodyPart>, k: nat)
    requires k <= |parts| && ScannedPast(parts, k)
    ensures ScanParts(parts) == ScanParts(parts[k..])
    decreases k
  {
    if k > 0 {
      assert ScannedPast(parts[1..], k - 1) by {
        forall j | 0 <= j < k - 1
          ensures parts[1..][j].BodyPart? && !IsPlainText(parts[1..][j].contentType)
        {
          assert parts[1..][j] == parts[j + 1];
        }
      }
      ScanSkips(parts[1..], k - 1);
      assert parts[1..][k - 1..] == parts[k..];
    }
  }

  /** The position where the scan stops: the first part that is unreadable
      or plain text, or the end. */
  lemma {:induction false} ScanStop(parts: seq<BodyPart>) returns (k: nat)
    ensures k <= |parts| && ScannedPast(parts, k)
    ensures k < |parts| ==> parts[k].UnreadablePart? || IsPlainText(parts[k].contentType)
    decreases |parts|
  {
    if parts == [] || parts[0].UnreadablePart? || IsPlainText(parts[0].contentType) {
      return 0;
    }
    var k' := ScanStop(parts[1..]);
    k := k' + 1;
    forall j | 0 < j < k
      ensures parts[j].BodyPart? && !IsPlainText(parts[j].contentType)
    {
      assert parts[j] == parts[1..][j - 1];
    }
    if k < |parts| {
      assert parts[k] == parts[1..][k'];
    }
  }

  /** Body resolution over the parts: the body is the content of the first
      plain-text part, all parts before it readable; the scan reports a
      throw when an unreadable part comes first; and it finds nothing
      exactly when every part is readable and none is plain text. */
  lemma ScanPartsFirstMatch(parts: seq<BodyPart>)
    ensures ScanParts(parts).Found? <==>
      exists k :: 0 <= k < |parts| && ScannedPast(parts, k) && parts[k].BodyPart? && IsPlainText(parts[k].contentType)
    ensures forall k :: (0 <= k < |parts| && ScannedPast(parts, k) && parts[k].BodyPart? && IsPlainText(parts[k].contentType)
      ==> ScanParts(parts) == Found(parts[k].content))
    ensures ScanParts(parts).Broken? <==>
      exists k :: 0 <= k < |parts| && ScannedPast(parts, k) && parts[k].UnreadablePart?
    ensures ScanParts(parts) == NotFound <==> ScannedPast(parts, |parts|)
  {
    forall k | 0 <= k < |parts| && ScannedPast(parts, k) && (parts[k].UnreadablePart? || IsPlainText(parts[k].contentType))
      ensures ScanParts(parts) == if parts[k].UnreadablePart? then Broken else Found(parts[k].content)
    {
      ScanSkips(parts, k);
      assert parts[k..][0] == parts[k];
    }
    var stop := ScanStop(parts);
    ScanSkips(parts, stop);
    if stop < |parts| {
      assert parts[stop..][0] == parts[stop];
    } else {
      assert parts[stop..] == [];
    }
    if ScannedPast(parts, |parts|) {
      ScanSkips(parts, |parts|);
      assert parts[|parts|..] == [];
    }
  }

  /** Body resolution: a string content is the body verbatim; a multipart
      content gives the first plain-text part's content, and leaves the
      body unset when there is none; any other content leaves it unset. */
  lemma DecodeBody(m: RawMessage)
    requires Decode(m).Decoded?
    ensures m.MimeMessage?
    ensures m.content.Text? ==> Decode(m).email.body == Some(m.content.text)
    ensures m.content.Multipart? ==>
      (ScanParts(m.content.parts).Found? && Decode(m).email.body == Some(ScanParts(m.content.parts).body))
      || (ScanParts(m.content.parts) == NotFound && Decode(m).email.body == None)
    ensures m.content.OtherContent? ==> Decode(m).email.body == None
  {
  }

  /** A single `text/plain; charset=UTF-8` part becomes the body. */
  lemma DecodeSinglePlainPart(from: Option<seq<string>>, to: Option<seq<string>>, subject: Option<string>)
    ensures var m := MimeMessage(from, to, subject, Multipart([BodyPart("text/plain; charset=UTF-8", "Plain text body")]));
      Decode(m).Decoded? && Decode(m).email.body == Some("Plain text body")
  {
    var ct := "text/plain; charset=UTF-8";
    var lower := ToLower(ct);
    assert lower[..|PlainText|] == PlainText;
    assert IsPlainText(ct);
  }

  class MailService {
    /** The analysis call (`aiService.analyzeEmail`). */
    const analyze: Analyzer
    /** The mail store, null until a connection attempt obtains one. */
    var store: Option<Store>
    /** The connection events caused so far. */
    var events: seq<Event>

    constructor (analyze: Analyzer)
      ensures this.analyze == analyze && store == None && events == []
    {
      this.analyze := analyze;
      store := None;
      events := [];
    }

    /** `connect()`: one attempt, which replaces `store` when it obtains a
        store object. */
    method Connect(attempt: Option<Store>)
      modifies this
      ensures store == AfterConnect(old(store), attempt)
      ensures events == old(events) + [ConnectAttempt]
    {
      events := events + [ConnectAttempt];
      if attempt.Some? {
        store := attempt;
      }
    }

    /** Decode one listed message: the sentinels for missing addresses, the
        subject, and the body from a string content or from the first
        plain-text part. */
    static method DecodeMessage(message: RawMessage) returns (d: Decoded)
      ensures d == Decode(message)
    {
      if !message.MimeMessage? {
        return Skipped;
      }
      var email := NewEmailMessage;
      var fromAddresses := message.from;
      if fromAddresses.Some? && |fromAddresses.value| > 0 {
        email := email.(from := Some(fromAddresses.value[0]));
      } else {
        email := email.(from := Some(UnknownSender));
      }
      var toAddresses := message.to;
      if toAddresses.Some? && |toAddresses.value| > 0 {
        email := email.(to := Some(toAddresses.value[0]));
      } else {
        email := email.(to := Some(UnknownRecipient));
      }
      email := email.(subject := message.subject);
      assert email == Headers(message);

      match message.content {
        case UnreadableContent =>
          return DecodeFailed;
        case Text(text) =>
          email := email.(body := Some(text));
        case OtherContent =>
        case Multipart(parts) =>
          var j := 0;
          while j < |parts|
            invariant 0 <= j <= |parts|
            invariant ScanParts(parts[j..]) == ScanParts(parts)
            invariant email == Headers(message)
          {
            var part := parts[j];
            assert parts[j..][1..] == parts[j + 1..];
            if part.UnreadablePart? {
              return DecodeFailed;
            }
            if IsPlainText(part.contentType) {
              email := email.(body := Some(part.content));
              break;
            }
            j := j + 1;
          }
      }
      return Decoded(email);
    }

    /** The loop of `fetchEmails` over the positions `[start, end)`:
        decode, annotate and append each MIME message; `failed` tells that
        decoding threw, which leaves the loop with the list built so far. */
    static method ProcessWindow(messages: seq<RawMessage>, analyze: Analyzer)
      returns (emails: seq<EmailMessage>, failed: bool)
      ensures Batch(emails, failed) == Process(Window(messages), analyze)
    {
      emails := [];
      var start := if |messages| - WindowSize > 0 then |messages| - WindowSize else 0;
      var end := |messages|;
      assert messages[start..] == Window(messages);
      for i := start to end
        invariant Process(messages[start..i], analyze) == Batch(emails, false)
      {
        var message := messages[i];
        assert messages[start..i + 1] == messages[start..i] + [message];
        ProcessSnoc(messages[start..i], message, analyze);
        var decoded := DecodeMessage(message);
        if decoded.DecodeFailed? {
          assert messages[start..i + 1] == Window(messages)[..i + 1 - start];
          FailureSticks(Window(messages), i + 1 - start, analyze);
          return emails, true;
        }
        if decoded.Decoded? {
          var email := decoded.email;
          var outcome := analyze(email);
          match outcome {
            case Analysis(text) =>
              email := email.(aiAnalysis := Some(text));
            case AiFailure(message) =>
              email := email.(aiAnalysis := Some(AnalysisErrorPrefix + JavaText(message)));
          }
          emails := emails + [email];
        }
      }
      assert messages[start..end] == Window(messages);
      return emails, false;
    }

    /** `fetchEmails()` */
    method FetchEmails(attempt: Option<Store>) returns (emails: seq<EmailMessage>)
      modifies this
      ensures var o := Fetch(old(store), attempt, analyze);
        emails == o.emails && store == o.store && events == old(events) + o.events
    {
      emails := [];
      if !Live(store) {
        Connect(attempt);
        if !Live(store) {
          return;
        }
      }
      var inbox := store.value.inbox;
      if !inbox.opens {
        return;
      }
      events := events + [InboxOpened];
      if inbox.listing.None? {
        return;
      }
      var messages := inbox.listing.value;
      var failed;
      emails, failed := ProcessWindow(messages, analyze);
      if failed {
        return;
      }
      events := events + [InboxClosed];
    }
  }
}
