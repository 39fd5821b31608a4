/** The page controller: how the event channel's callbacks are routed,
    how a pushed message reaches the open conversation, the status check
    with its QR display, the QR button and the send guard. */
module App {
  import opened Wrappers
  import opened Json
  import opened Api
  import opened Chat
  import Text
  import opened Session
  import opened Conversation
  import opened Channel

  /** What the page does for each channel callback. */
  datatype Reaction =
    | LogOnly
    | BackToLogin
    | ShowQrImage(qr: Option<string>)
    | ShowChatAndReload
    | NewMessage(payload: Option<Message>)
    | ReloadChats

  /** The page's handler table: ready shows the chats and reloads them, a
      chat update reloads them, a message goes to `handleNewMessage`, an
      authentication failure goes back to the login screen, a QR refresh is
      displayed, and open, close, error and ack events are only logged. */
  function Route(c: Call<Message>): (r: Reaction)
    ensures c.Ready? <==> r == ShowChatAndReload
    ensures c.ChatUpdated? <==> r == ReloadChats
    ensures c.MessageArrived? <==> r.NewMessage?
    ensures c.MessageArrived? ==> r.payload == c.payload
    ensures c.AuthFailed? <==> r == BackToLogin
    ensures c.QrRefreshed? <==> r.ShowQrImage?
    ensures c.QrRefreshed? ==> r.qr == c.qr
    ensures c.OpenReported? || c.CloseReported? || c.ErrorReported? || c.AckArrived? <==> r == LogOnly
  {
    match c
    case OpenReported => LogOnly
    case CloseReported => LogOnly
    case ErrorReported => LogOnly
    case AuthFailed => BackToLogin
    case QrRefreshed(qr) => ShowQrImage(qr)
    case Ready => ShowChatAndReload
    case MessageArrived(p) => NewMessage(p)
    case AckArrived(_) => LogOnly
    case ChatUpdated(_) => ReloadChats
  }

  /** The record `handleNewMessage` builds from a pushed message: only its
      body, direction, timestamp and media survive. */
  function Stripped(m: Message): (r: Message)
    ensures r.body == m.body && r.fromMe == m.fromMe && r.timestamp == m.timestamp
    ensures r.hasMedia == m.hasMedia && r.media == m.media
    ensures r.id.None? && r.from.None? && r.text.None? && r.ack.None?
    ensures r.contact.None? && r.author.None? && r.notifyName.None? && r.fromName.None?
  {
    Message(None, None, m.body, None, m.fromMe, m.timestamp, m.hasMedia, m.media, None, None, None, None, None)
  }

  /** A pushed message is for the open conversation when a chat is
      selected and the message comes from it. */
  predicate ForOpenChat(current: Option<string>, m: Message) {
    Filled(current) && m.from == current
  }

  /** `handleNewMessage`. A push without payload throws on `payload.from`,
      which the channel catches: nothing happens, not even a reload.
      Otherwise the stripped message is appended to the pane when it
      belongs to the open conversation, and the chat list is reloaded in
      every case. */
  method HandleNewMessage(v: View, payload: Option<Message>)
    modifies v
    ensures payload.None? ==> v.pane == old(v.pane) && v.chatListRequests == old(v.chatListRequests)
    ensures payload.Some? && ForOpenChat(old(v.currentChat), payload.value) ==>
              v.pane == old(v.pane) + [MessageBubble(BubbleOf(old(v.currentChatInfo), Stripped(payload.value)))]
    ensures payload.Some? && !ForOpenChat(old(v.currentChat), payload.value) ==> v.pane == old(v.pane)
    ensures payload.Some? ==> v.chatListRequests == old(v.chatListRequests) + 1
    ensures v.currentChat == old(v.currentChat) && v.currentChatInfo == old(v.currentChatInfo)
    ensures v.chatList == old(v.chatList)
  {
    if payload.None? {
      return;
    }
    var m := payload.value;
    if ForOpenChat(v.currentChat, m) {
      v.pane := v.pane + [MessageBubble(BubbleOf(v.currentChatInfo, Stripped(m)))];
    }
    v.RequestChatList();
  }

  /** A pushed message in an open group chat, not sent by the user, is
      labelled "Desconhecido": the stripped record has no sender fields. */
  lemma PushedGroupMessageHasUnknownSender(info: Option<ChatSummary>, m: Message)
    requires InfoIsGroup(info) && !Set(m.fromMe)
    ensures BubbleOf(info, Stripped(m)).sender == Some("Desconhecido")
  {
    var p := NameProbes(Stripped(m));
    assert forall i :: 0 <= i < |p| ==> !Filled(p[i]);
  }

  /** The page's reaction to one channel callback. */
  method OnCall(v: View, c: Call<Message>)
    modifies v
    ensures v.chatListRequests == old(v.chatListRequests) +
              (if c.Ready? || c.ChatUpdated? || (c.MessageArrived? && c.payload.Some?) then 1 else 0)
    ensures !c.MessageArrived? ==> v.pane == old(v.pane)
    ensures c.MessageArrived? && c.payload.Some? && ForOpenChat(old(v.currentChat), c.payload.value) ==>
              v.pane == old(v.pane) + [MessageBubble(BubbleOf(old(v.currentChatInfo), Stripped(c.payload.value)))]
    ensures v.currentChat == old(v.currentChat) && v.currentChatInfo == old(v.currentChatInfo)
    ensures v.chatList == old(v.chatList)
  {
    match Route(c)
    case ShowChatAndReload => v.RequestChatList();
    case ReloadChats => v.RequestChatList();
    case NewMessage(p) => HandleNewMessage(v, p);
    case _ =>
  }

  /** What the status check shows: the status and session record, with the
      QR image when one was fetched; or the generic error text. */
  datatype StatusReport = StatusShown(status: Access, info: Data, qr: Option<nat>) | StatusUnavailable

  datatype Checked = Checked(report: StatusReport, trace: seq<Request>)

  /** `checkStatus`: the status query (404 read as stopped), then a QR fetch
      only while the gateway waits for a scan; a failed QR fetch is ignored
      and any other failure is shown as an error text, never thrown. */
  function CheckStatus(gw: Gateway): (r: Checked)
    ensures |r.trace| >= 1 && r.trace[0] == StatusQuery(DefaultSession)
    ensures |r.trace| <= 2
    ensures |r.trace| == 2 <==> r.report.StatusShown? && r.report.status == Found(JStr("SCAN_QR_CODE"))
    ensures |r.trace| == 2 ==> r.trace[1] == QrRequest(DefaultSession)
    ensures r.report.StatusShown? && r.report.qr.Some? ==>
              |r.trace| == 2 && GetQRCode(gw.qr) == Success(r.report.qr.value)
    ensures |r.trace| == 2 && GetQRCode(gw.qr).Success? ==> r.report.qr == Some(GetQRCode(gw.qr).value)
    ensures GetSessionStatus(gw.status).Failure? ==> r.report == StatusUnavailable
    ensures GetSessionStatus(gw.status).Success? && !Field(GetSessionStatus(gw.status).value, "status").Throws? ==>
              r.report.StatusShown? && r.report.info == GetSessionStatus(gw.status).value
    ensures GetSessionStatus(gw.status).Success? && Field(GetSessionStatus(gw.status).value, "status").Throws? ==>
              r.report == StatusUnavailable
  {
    var t := [StatusQuery(DefaultSession)];
    var fetched := GetSessionStatus(gw.status);
    // The 404 branch of the page repeats the request layer's own mapping
    // and is never taken.
    var data := if fetched.Failure? && fetched.error.status == Some(404)
                then Success(JsonData(StatusObject("STOPPED"))) else fetched;
    match data
    case Failure(_) => Checked(StatusUnavailable, t)
    case Success(d) =>
      var st := Field(d, "status");
      if st.Throws? then Checked(StatusUnavailable, t)
      else if IsLinked(st) then Checked(StatusShown(st, d, None), t)
      else if st == Found(JStr("SCAN_QR_CODE")) then
        var q := GetQRCode(gw.qr);
        Checked(StatusShown(st, d, if q.Success? then Some(q.value) else None), t + [QrRequest(DefaultSession)])
      else Checked(StatusShown(st, d, None), t)
  }

  /** A session the gateway does not know is shown as stopped. */
  lemma MissingSessionShownStopped(gw: Gateway)
    requires gw.status.Responded? && !gw.status.response.ok && gw.status.response.status == 404
    requires ReadBody(gw.status.response).Success? && ReadBody(gw.status.response).value != JsonData(JNull)
    ensures CheckStatus(gw) == Checked(StatusShown(Found(JStr("STOPPED")), JsonData(StatusObject("STOPPED")), None),
                                       [StatusQuery(DefaultSession)])
  {
  }

  /** What the QR button leads to. */
  datatype QrOutcome = AskForPhone | QrReady(image: nat) | LinkedInfo(info: Data) | QrError(message: Json)

  datatype QrAttempt = QrAttempt(outcome: QrOutcome, trace: seq<Request>)

  /** `generateQR`: without a phone only a warning is shown; otherwise the
      QR flow runs, and a session that needs no QR has its status queried
      again (`recheck` is the gateway's answer to that second query) and
      shown. Errors of the flow or of the second query become an error
      text. */
  function GenerateQR(phone: string, gw: Gateway, recheck: Fetched): (r: QrAttempt)
    ensures r.outcome == AskForPhone <==> phone == ""
    ensures phone == "" ==> r.trace == []
    ensures phone != "" ==> QrFlow(DefaultSession, phone, gw).trace <= r.trace
    ensures r.outcome.QrReady? <==> (phone != "" && QrFlow(DefaultSession, phone, gw).result.Success?
                                     && QrFlow(DefaultSession, phone, gw).result.value.Some?)
    ensures r.outcome.QrReady? ==> r.outcome.image == QrFlow(DefaultSession, phone, gw).result.value.value
    ensures phone != "" && QrFlow(DefaultSession, phone, gw).result.Failure? ==>
              r == QrAttempt(QrError(QrFlow(DefaultSession, phone, gw).result.error.message), QrFlow(DefaultSession, phone, gw).trace)
    ensures phone != "" && QrFlow(DefaultSession, phone, gw).result == Success(None) ==>
              && r.trace == QrFlow(DefaultSession, phone, gw).trace + [StatusQuery(DefaultSession)]
              && (GetSessionStatus(recheck).Success? ==> r.outcome == LinkedInfo(GetSessionStatus(recheck).value))
              && (GetSessionStatus(recheck).Failure? ==> r.outcome == QrError(GetSessionStatus(recheck).error.message))
    ensures r.outcome.LinkedInfo? ==> r.trace == [StatusQuery(DefaultSession), StatusQuery(DefaultSession)]
  {
    if phone == "" then QrAttempt(AskForPhone, [])
    else
      var f := QrFlow(DefaultSession, phone, gw);
      match f.result
      case Failure(e) => QrAttempt(QrError(e.message), f.trace)
      case Success(Some(image)) => QrAttempt(QrReady(image), f.trace)
      case Success(None) =>
        var t := f.trace + [StatusQuery(DefaultSession)];
        match GetSessionStatus(recheck)
        case Success(d) => QrAttempt(LinkedInfo(d), t)
        case Failure(e) => QrAttempt(QrError(e.message), t)
  }

  /** Only a linked session makes the page query the status a second time:
      the flow then ends right after its own status query. */
  lemma RecheckOnlyWhenLinked(phone: string, gw: Gateway, recheck: Fetched)
    requires phone != "" && QrFlow(DefaultSession, phone, gw).result == Success(None)
    ensures GetSessionStatus(gw.status).Success? && IsLinked(Field(GetSessionStatus(gw.status).value, "status"))
    ensures GenerateQR(phone, gw, recheck).trace == [StatusQuery(DefaultSession), StatusQuery(DefaultSession)]
  {
  }

  /** A text message the page sends: chat, text and session. */
  datatype Outgoing = Outgoing(chatId: string, text: string, session: string)

  /** The input box after a send attempt and the message sent, if any. */
  datatype SendResult = SendResult(sent: Option<Outgoing>, input: string)

  /** `sendMessage` with the chat module's own guard: nothing happens
      without a selected chat or with blank input; otherwise the input is
      cleared and the trimmed text is sent to the selected chat. */
  function SendMessage(current: Option<string>, input: string): (r: SendResult)
    ensures r.sent.Some? <==> Filled(current) && Text.Trim(input) != ""
    ensures r.sent.None? ==> r.input == input
    ensures r.sent.Some? ==> r.input == "" && r.sent.value == Outgoing(current.value, Text.Trim(input), DefaultSession)
  {
    if !Filled(current) || Text.Trim(input) == "" then SendResult(None, input)
    else
      var message := Text.Trim(input);
      // The chat module trims and checks again before sending.
      Text.TrimIdempotent(input);
      if Text.Trim(message) == "" then SendResult(None, "")
      else SendResult(Some(Outgoing(current.value, Text.Trim(message), DefaultSession)), "")
  }
}
