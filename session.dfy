/** The session protocol of the browser client: creating the gateway
    session, reading its status, configuring webhooks, starting it and the
    status-driven QR code flow. Each operation is described by the requests
    it issues in order and by its result, given the gateway's answers. */
module Session {
  import opened Wrappers
  import opened Json
  import opened Api

  const DefaultSession: string := "default"
  /** How long the QR flow waits after starting a stopped session. */
  const SettleDelayMs: nat := 2000

  /** The webhook set written by a configuration update. */
  const UpdatedWebhooks: seq<Webhook> := [Webhook(WebhookUrl, ["message.any", "message.ack", "session.status"])]

  /** The requests the session protocol sends, and its pause. */
  datatype Request =
    | StatusQuery(session: string)
    | CreateRequest(body: SessionConfig)
    | ConfigUpdate(session: string, webhooks: seq<Webhook>)
    | StartRequest(session: string)
    | Wait(ms: nat)
    | QrRequest(session: string)

  /** The gateway's answer to each kind of request. Within one operation
      each kind is sent at most once. */
  datatype Gateway = Gateway(status: Fetched, create: Fetched, update: Fetched, start: Fetched, qr: QrFetched)

  /** An operation's result (or the error it throws) and its requests. */
  datatype Run<T> = Run(result: Result<T, ApiError>, trace: seq<Request>)

  /** The error of a failed request, as the operation rethrows it. */
  function Completion(r: Result<Data, ApiError>): (c: Result<(), ApiError>)
    ensures c.Success? <==> r.Success?
    ensures c.Failure? ==> c.error == r.error
  {
    if r.Success? then Success(()) else Failure(r.error)
  }

  /** `Session.createSession`: a 422 means the session exists, and the
      default session's webhooks are updated instead. */
  function CreateSession(phone: string, gw: Gateway): (r: Run<()>)
    ensures |r.trace| >= 1 && r.trace[0] == CreateRequest(CreateSessionBody(phone))
    ensures var c := ApiRequest(gw.create);
            && (c.Success? ==> r == Run(Success(()), [r.trace[0]]))
            && (c.Failure? && c.error.status != Some(422) ==> r == Run(Failure(c.error), [r.trace[0]]))
            && (c.Failure? && c.error.status == Some(422) ==>
                  r == Run(Completion(ApiRequest(gw.update)), [r.trace[0], ConfigUpdate(DefaultSession, UpdatedWebhooks)]))
  {
    var t := [CreateRequest(CreateSessionBody(phone))];
    var c := ApiRequest(gw.create);
    if c.Success? then Run(Success(()), t)
    else if c.error.status != Some(422) then Run(Failure(c.error), t)
    else Run(Completion(ApiRequest(gw.update)), t + [ConfigUpdate(DefaultSession, UpdatedWebhooks)])
  }

  /** `Session.configureWebhooks`: one update; its errors are swallowed. */
  function ConfigureWebhooks(session: string, gw: Gateway): (r: Run<()>)
    ensures r.result.Success?
    ensures r.trace == [ConfigUpdate(session, UpdatedWebhooks)]
  {
    Run(Success(()), [ConfigUpdate(session, UpdatedWebhooks)])
  }

  /** `Session.startSession`: webhooks first, whatever happens to them,
      then the start request, whose error propagates. */
  function StartSession(session: string, gw: Gateway): (r: Run<()>)
    ensures r.trace == [ConfigUpdate(session, UpdatedWebhooks), StartRequest(session)]
    ensures r.result.Success? <==> ApiRequest(gw.start).Success?
    ensures r.result.Failure? ==> r.result.error == ApiRequest(gw.start).error
  {
    var w := ConfigureWebhooks(session, gw);
    Run(Completion(ApiRequest(gw.start)), w.trace + [StartRequest(session)])
  }

  /** A session record with a status and a null name. */
  function SessionRecord(status: string): (v: Json)
    ensures FieldIs(v, "status", status) && Get(v, "name") == Found(JNull)
  {
    JObj(map["status" := JStr(status), "name" := JNull])
  }

  /** `Session.checkSessionStatus`: the first listed session, a stopped
      record for an empty list, an error record when the listing fails.
      A text body is indexed like a string; other values have no length. */
  function CheckSessionStatus(list: Fetched): (v: Json)
    ensures ApiRequest(list).Failure? ==> v == SessionRecord("ERROR")
    ensures ApiRequest(list) == Success(JsonData(JNull)) ==> v == SessionRecord("ERROR")
    ensures ApiRequest(list) == Success(JsonData(JArr([]))) ==> v == SessionRecord("STOPPED")
    ensures forall items :: ApiRequest(list) == Success(JsonData(JArr(items))) && |items| > 0 ==> v == items[0]
  {
    match ApiRequest(list)
    case Failure(_) => SessionRecord("ERROR")
    case Success(d) =>
      match d
      case JsonData(JNull) => SessionRecord("ERROR")
      case JsonData(JArr(items)) => if |items| > 0 then items[0] else SessionRecord("STOPPED")
      case JsonData(JStr(s)) => if |s| > 0 then JStr([s[0]]) else SessionRecord("STOPPED")
      case TextData(s) => if |s| > 0 then JStr([s[0]]) else SessionRecord("STOPPED")
      case _ => SessionRecord("STOPPED")
  }

  /** Status values for which no QR code is needed. */
  predicate IsLinked(st: Access) {
    st == Found(JStr("WORKING")) || st == Found(JStr("AUTHENTICATED"))
  }

  /** A failed or absent status means the session must be created. */
  predicate NeedsCreate(st: Access)
    requires !st.Throws?
  {
    st == Found(JStr("FAILED")) || !TruthyAccess(st)
  }

  predicate IsStopped(st: Access) {
    st == Found(JStr("STOPPED"))
  }

  /** Starting a stopped session, then the settle pause. */
  function StartAndWait(session: string, gw: Gateway): (r: Run<()>)
    ensures r.result.Success? <==> ApiRequest(gw.start).Success?
    ensures r.result.Success? ==> r.trace == [StartRequest(session), Wait(SettleDelayMs)]
    ensures r.result.Failure? ==> r.trace == [StartRequest(session)] && r.result.error == ApiRequest(gw.start).error
  {
    var a := ApiRequest(gw.start);
    if a.Success? then Run(Success(()), [StartRequest(session), Wait(SettleDelayMs)])
    else Run(Failure(a.error), [StartRequest(session)])
  }

  /** What the QR flow does between the status query and the QR fetch. */
  function Prepare(session: string, phone: string, st: Access, gw: Gateway): (r: Run<()>)
    requires !st.Throws?
    ensures forall i :: 0 <= i < |r.trace| ==> !r.trace[i].QrRequest? && !r.trace[i].StatusQuery?
    ensures NeedsCreate(st) ==> r == CreateSession(phone, gw)
    ensures IsStopped(st) ==> r == StartAndWait(session, gw)
    ensures !NeedsCreate(st) && !IsStopped(st) ==> r == Run(Success(()), [])
  {
    if NeedsCreate(st) then CreateSession(phone, gw)
    else if IsStopped(st) then StartAndWait(session, gw)
    else Run(Success(()), [])
  }

  /** The QR flow as a whole: the specification `GenerateQRCode` meets.
      The result is `None` when no QR code is needed, else the QR image. */
  function QrFlow(session: string, phone: string, gw: Gateway): (r: Run<Option<nat>>)
    ensures |r.trace| >= 1 && r.trace[0] == StatusQuery(session)
    ensures GetSessionStatus(gw.status).Failure? ==>
              r == Run(Failure(GetSessionStatus(gw.status).error), [StatusQuery(session)])
    ensures r.result.Success? && r.result.value.Some? ==>
              GetQRCode(gw.qr) == Success(r.result.value.value) && r.trace[|r.trace| - 1] == QrRequest(session)
    ensures r.result == Success(None) <==>
              GetSessionStatus(gw.status).Success? && IsLinked(Field(GetSessionStatus(gw.status).value, "status"))
    ensures GetSessionStatus(gw.status).Success? && StatusField(gw).Throws? ==>
              r == Run(Failure(NullRead("status")), [StatusQuery(session)])
    ensures GetSessionStatus(gw.status).Success? && !StatusField(gw).Throws? && !IsLinked(StatusField(gw))
            && Prepare(session, phone, StatusField(gw), gw).result.Failure? ==>
              r == Run(Failure(Prepare(session, phone, StatusField(gw), gw).result.error),
                       [StatusQuery(session)] + Prepare(session, phone, StatusField(gw), gw).trace)
  {
    var t := [StatusQuery(session)];
    match GetSessionStatus(gw.status)
    case Failure(e) => Run(Failure(e), t)
    case Success(d) =>
      var st := Field(d, "status");
      if st.Throws? then Run(Failure(NullRead("status")), t)
      else if IsLinked(st) then Run(Success(None), t)
      else
        var p := Prepare(session, phone, st, gw);
        if p.result.Failure? then Run(Failure(p.result.error), t + p.trace)
        else
          var q := GetQRCode(gw.qr);
          Run(if q.Success? then Success(Some(q.value)) else Failure(q.error), t + p.trace + [QrRequest(session)])
  }

  /** `Session.generateQRCode`, step by step as the source performs it. */
  method GenerateQRCode(session: string, phone: string, gw: Gateway)
    returns (qr: Result<Option<nat>, ApiError>, trace: seq<Request>)
    ensures Run(qr, trace) == QrFlow(session, phone, gw)
  {
    trace := [StatusQuery(session)];
    var status: Data;
    var fetched := GetSessionStatus(gw.status);
    if fetched.Failure? {
      if fetched.error.status == Some(404) {
        // The status query never fails with 404 (see GetSessionStatus),
        // so this assignment is never reached.
        status := JsonData(StatusObject("FAILED"));
      } else {
        return Failure(fetched.error), trace;
      }
    } else {
      status := fetched.value;
    }
    var st := Field(status, "status");
    if st.Throws? {
      return Failure(NullRead("status")), trace;
    }
    if IsLinked(st) {
      return Success(None), trace;
    }
    if NeedsCreate(st) {
      var created := CreateSession(phone, gw);
      trace := trace + created.trace;
      if created.result.Failure? {
        return Failure(created.result.error), trace;
      }
    }
    if IsStopped(st) {
      var started := ApiRequest(gw.start);
      trace := trace + [StartRequest(session)];
      if started.Failure? {
        return Failure(started.error), trace;
      }
      trace := trace + [Wait(SettleDelayMs)];
    }
    var image := GetQRCode(gw.qr);
    trace := trace + [QrRequest(session)];
    if image.Failure? {
      return Failure(image.error), trace;
    }
    return Success(Some(image.value)), trace;
  }

  /** The status field of a successful status query. */
  function StatusField(gw: Gateway): Access
    requires GetSessionStatus(gw.status).Success?
  {
    Field(GetSessionStatus(gw.status).value, "status")
  }

  /** A linked session needs nothing: no create, no start, no QR fetch. */
  lemma LinkedSessionNeedsNoQr(session: string, phone: string, gw: Gateway)
    requires GetSessionStatus(gw.status).Success? && IsLinked(StatusField(gw))
    ensures QrFlow(session, phone, gw) == Run(Success(None), [StatusQuery(session)])
  {
  }

  /** A failed or missing status creates the session before the QR fetch
      and never starts it. */
  lemma FailedOrMissingIsCreated(session: string, phone: string, gw: Gateway)
    requires GetSessionStatus(gw.status).Success?
    requires var st := StatusField(gw); !st.Throws? && NeedsCreate(st)
    ensures var r := QrFlow(session, phone, gw);
            |r.trace| >= 2 && r.trace[1] == CreateRequest(CreateSessionBody(phone))
            && forall i :: 0 <= i < |r.trace| ==> !r.trace[i].StartRequest?
  {
  }

  /** A stopped session is started and given 2000 ms before the QR fetch. */
  lemma StoppedIsStartedThenWaited(session: string, phone: string, gw: Gateway)
    requires GetSessionStatus(gw.status).Success? && IsStopped(StatusField(gw))
    requires ApiRequest(gw.start).Success?
    ensures QrFlow(session, phone, gw).trace ==
            [StatusQuery(session), StartRequest(session), Wait(2000), QrRequest(session)]
  {
  }

  /** A status that is neither linked nor calls for a creation or a start
      (waiting for a scan, starting) goes straight to the QR fetch. */
  lemma DirectFetch(session: string, phone: string, gw: Gateway)
    requires GetSessionStatus(gw.status).Success?
    requires var st := StatusField(gw); !st.Throws? && !IsLinked(st) && !NeedsCreate(st) && !IsStopped(st)
    ensures QrFlow(session, phone, gw).trace == [StatusQuery(session), QrRequest(session)]
  {
  }

  /** Every session that is not linked and whose preparation succeeds ends
      in exactly one QR fetch, whose outcome is the flow's result. */
  lemma NonLinkedEndsInQrFetch(session: string, phone: string, gw: Gateway)
    requires GetSessionStatus(gw.status).Success?
    requires var st := StatusField(gw); !st.Throws? && !IsLinked(st)
    requires Prepare(session, phone, StatusField(gw), gw).result.Success?
    ensures var r := QrFlow(session, phone, gw);
            && |r.trace| >= 2 && r.trace[|r.trace| - 1] == QrRequest(session)
            && (forall i :: 0 <= i < |r.trace| - 1 ==> !r.trace[i].QrRequest?)
            && (GetQRCode(gw.qr).Success? ==> r.result == Success(Some(GetQRCode(gw.qr).value)))
            && (GetQRCode(gw.qr).Failure? ==> r.result == Failure(GetQRCode(gw.qr).error))
  {
    var p := Prepare(session, phone, StatusField(gw), gw);
    var t := [StatusQuery(session)] + p.trace + [QrRequest(session)];
    assert QrFlow(session, phone, gw).trace == t;
    assert forall i :: 0 <= i < |t| - 1 ==> t[i] == ([StatusQuery(session)] + p.trace)[i];
  }

  /** Whenever the QR code is requested, it is the last request, it is sent
      exactly once, and the flow's result is that fetch's outcome. */
  lemma QrFetchedOnceAtTheEnd(session: string, phone: string, gw: Gateway)
    requires var t := QrFlow(session, phone, gw).trace; exists i :: 0 <= i < |t| && t[i].QrRequest?
    ensures var r := QrFlow(session, phone, gw);
            && r.trace[|r.trace| - 1] == QrRequest(session)
            && (forall i :: 0 <= i < |r.trace| - 1 ==> !r.trace[i].QrRequest?)
            && (GetQRCode(gw.qr).Success? ==> r.result == Success(Some(GetQRCode(gw.qr).value)))
            && (GetQRCode(gw.qr).Failure? ==> r.result == Failure(GetQRCode(gw.qr).error))
  {
    var t := [StatusQuery(session)];
    var d := GetSessionStatus(gw.status).value;
    var st := Field(d, "status");
    var p := Prepare(session, phone, st, gw);
    assert QrFlow(session, phone, gw).trace == t + p.trace + [QrRequest(session)];
  }

  /** A session the gateway does not know (a 404 from the status query)
      is started, never created. */
  lemma MissingSessionIsStarted(session: string, phone: string, gw: Gateway)
    requires gw.status.Responded? && !gw.status.response.ok && gw.status.response.status == 404
    requires ReadBody(gw.status.response).Success? && ReadBody(gw.status.response).value != JsonData(JNull)
    ensures var t := QrFlow(session, phone, gw).trace;
            |t| >= 2 && t[1] == StartRequest(session)
            && forall i :: 0 <= i < |t| ==> !t[i].CreateRequest?
  {
    assert StatusField(gw) == Found(JStr("STOPPED"));
  }
}
