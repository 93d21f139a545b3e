/**
 * The pairing and status endpoints (`handlers.SessionHandler`) as decisions
 * over the registry: which failure paths remove the freshly created client,
 * and what a status request reports and saves. Responses are values, not HTTP.
 */
module SessionHandlers {
  import opened Common
  import opened Storage
  import opened SessionFiles
  import opened WhatsappClient

  const StatusOK: int := 200
  const StatusBadRequest: int := 400
  const StatusNotFound: int := 404
  const StatusRequestTimeout: int := 408
  const StatusInternalServerError: int := 500

  const MissingSessionID: string := "ID da sessão não fornecido"
  const SessionNotFound: string := "Sessão não encontrada"
  const QRTimeoutMessage: string := "Timeout ao gerar QR Code"

  datatype Body = ErrorBody(error: string) | ConnectedBody(connected: bool)

  datatype Response =
    | ErrorPage(status: int, message: string)                   // the "error" template
    | QRCodePage(status: int, code: string, sessionID: string)  // the "qrcode" template; the image is rendered from `code`
    | Json(status: int, body: Body)

  /**
   * Creates a client, opens its QR stream, starts the forwarder and answers
   * with the first code read from it. `deadlineFirst` says whether the
   * request's deadline beats that single read; `sendsBeforeDone` is the
   * forwarder's allowance of sends before its context is done (see
   * ForwardQR). `encodeError` is the QR image encoder's verdict. Once the
   * channel is open the background connect (ConnectInBackground) runs; it is
   * placed before the read, since it starts one second in and the codes come
   * after it. The library client is never disconnected here: a removal
   * consults the handle's flag, which the background connect does not set.
   */
  method GenerateQRCode(m: Manager, disk: Disk, env: ClientEnv, deadlineFirst: bool, sendsBeforeDone: nat,
                        encodeError: Option<string>)
    returns (resp: Response, created: Option<Client>)
    requires m.Valid()
    modifies m, disk
    ensures m.Valid()
    ensures created.Some? <==> env.dirError.None? && env.storeError.None?
    ensures created.None? ==>
              && resp.ErrorPage? && resp.status == StatusInternalServerError
              && m.clients == old(m.clients) && disk.files == old(disk.files)
    ensures created.Some? ==>
              var c := created.value;
              && fresh(c) && fresh(c.wa) && c.id == env.id && c.wa != null && !c.connected
              && disk.files == old(disk.files) + {SessionPath(env.id)}
              && (resp.QRCodePage? ==> m.clients == old(m.clients)[env.id := c])
              && (!resp.QRCodePage? ==> m.clients == old(m.clients) - {env.id})
    ensures created.Some? ==>
              var w := created.value.wa;
              && w != null && w.pollCalls == 0 && w.disconnectCalls == 0
              && w.connectCalls == (if env.protocol.qrError.None? then 1 else 0)
              && w.pollAnswers == env.protocol.pollAnswers && w.storeID == env.protocol.storeID
    ensures created.Some? ==>
              resp == if env.protocol.qrError.Some? then ErrorPage(StatusInternalServerError, "Erro ao obter QR Code: " + env.protocol.qrError.value)
                      else if deadlineFirst then ErrorPage(StatusRequestTimeout, QRTimeoutMessage)
                      else if encodeError.Some? then ErrorPage(StatusInternalServerError, "Erro ao gerar QR Code: " + encodeError.value)
                      else QRCodePage(StatusOK, if sendsBeforeDone > 0 && Codes(env.protocol.qrStream) != []
                                                then Codes(env.protocol.qrStream)[0] else "", env.id)
  {
    created := None;
    var made := m.NewClient(env, disk);
    if made.Err? {
      return ErrorPage(StatusInternalServerError, "Erro ao criar cliente: " + made.error.Message()), None;
    }
    var client := made.value;
    created := Some(client);
    var qr := client.GetQRChannel();
    if qr.Err? {
      m.RemoveClient(client.id);
      return ErrorPage(StatusInternalServerError, "Erro ao obter QR Code: " + qr.error.Message()), created;
    }
    var _ := ConnectInBackground(client);
    var out := ForwardQR(qr.value, sendsBeforeDone);
    var wait := ConsumerRead(out, deadlineFirst);
    ConsumerReadsFirstCode(qr.value, out, sendsBeforeDone);
    // A closed channel delivers Go's zero value, the empty string.
    var qrCode := match wait case CodeReceived(code) => code case _ => "";
    if wait.DeadlineExpired? {
      m.RemoveClient(client.id);
      resp := ErrorPage(StatusRequestTimeout, QRTimeoutMessage);
    } else if encodeError.Some? {
      m.RemoveClient(client.id);
      resp := ErrorPage(StatusInternalServerError, "Erro ao gerar QR Code: " + encodeError.value);
    } else {
      resp := QRCodePage(StatusOK, qrCode, client.id);
    }
  }

  /**
   * A pairing attempt whose QR channel cannot be opened, followed by the
   * deferred cleanup: the handle is gone, but its session file stays, because
   * the removal the handler performs never deletes the file and the cleanup
   * then finds nothing to clean.
   */
  method FailedQRChannelKeepsFile(m: Manager, disk: Disk, env: ClientEnv, deadlineFirst: bool, sendsBeforeDone: nat,
                                  encodeError: Option<string>, removeFault: bool)
    returns (resp: Response, removed: bool)
    requires m.Valid() && env.dirError.None? && env.storeError.None? && env.protocol.qrError.Some?
    modifies m, disk
    ensures m.Valid()
    ensures resp == ErrorPage(StatusInternalServerError, "Erro ao obter QR Code: " + env.protocol.qrError.value)
    ensures !removed
    ensures env.id !in m.clients && SessionPath(env.id) in disk.files
  {
    var created;
    resp, created := GenerateQRCode(m, disk, env, deadlineFirst, sendsBeforeDone, encodeError);
    removed := m.CleanupCheck(env.id, disk, removeFault);
  }

  /**
   * When the cleanup timer, started inside NewClient, fires before the
   * pairing handler has dropped the still unconnected handle, the cleanup
   * removes it and deletes its session file. On the deadline path the two
   * orders race; this is the other order from FailedQRChannelKeepsFile.
   */
  method CleanupBeforeHandlerRemovesFile(m: Manager, disk: Disk, env: ClientEnv) returns (removed: bool)
    requires m.Valid() && env.dirError.None? && env.storeError.None?
    modifies m, disk
    ensures m.Valid()
    ensures removed
    ensures env.id !in m.clients && SessionPath(env.id) !in disk.files
  {
    var made := m.NewClient(env, disk);
    removed := m.CleanupCheck(env.id, disk, false);
  }

  /**
   * A pairing that answers with a QR page while the handle never connects
   * (the background connect fails, or no Connected event arrives): the
   * deferred cleanup tears the handle down, forces one library disconnect
   * and deletes the session file, as the cleanup comment of the original
   * promises.
   */
  method UnpairedHandleIsCleanedUp(m: Manager, disk: Disk, env: ClientEnv, sendsBeforeDone: nat)
    returns (resp: Response, removed: bool)
    requires m.Valid() && env.dirError.None? && env.storeError.None? && env.protocol.qrError.None?
    modifies m, disk
    ensures m.Valid()
    ensures resp.QRCodePage? && resp.sessionID == env.id
    ensures removed
    ensures env.id !in m.clients && SessionPath(env.id) !in disk.files
  {
    var created;
    resp, created := GenerateQRCode(m, disk, env, false, sendsBeforeDone, None);
    removed := m.CleanupCheck(env.id, disk, false);
  }

  /**
   * The connect the pairing handler starts in the background: the library's
   * connect only. Its error is merely logged: the registry and the handle's
   * flag are left alone.
   */
  method ConnectInBackground(client: Client) returns (err: bool)
    requires client.wa != null
    modifies client.wa
    ensures err == client.wa.connectFails
    ensures client.wa.connectCalls == old(client.wa.connectCalls) + 1
    ensures client.wa.disconnectCalls == old(client.wa.disconnectCalls) && client.wa.pollCalls == old(client.wa.pollCalls)
    ensures client.wa.pollAnswers == old(client.wa.pollAnswers) && client.wa.storeID == old(client.wa.storeID)
  {
    err := client.wa.Connect();
  }

  /**
   * Reports whether the session is connected, saving it with its paired
   * identity when it is. A missing id and an unknown id change nothing; a save
   * error does not change the answer.
   */
  method CheckConnection(m: Manager, db: Database, sessionID: string) returns (resp: Response)
    requires m.Valid()
    modifies db
    ensures sessionID == "" ==> resp == Json(StatusBadRequest, ErrorBody(MissingSessionID)) && db.log == old(db.log)
    ensures sessionID != "" && sessionID !in m.clients ==>
              resp == Json(StatusNotFound, ErrorBody(SessionNotFound)) && db.log == old(db.log)
    ensures sessionID != "" && sessionID in m.clients ==>
              var c := m.clients[sessionID];
              && resp == Json(StatusOK, ConnectedBody(c.connected))
              && db.log == old(db.log) + if c.connected && c.wa.storeID.Some?
                                         then [SaveSession(sessionID, "WhatsApp", c.wa.storeID.value.text, c.wa.storeID.value.user)]
                                         else []
  {
    if sessionID == "" {
      return Json(StatusBadRequest, ErrorBody(MissingSessionID));
    }
    if sessionID !in m.clients {
      return Json(StatusNotFound, ErrorBody(SessionNotFound));
    }
    var client := m.clients[sessionID];
    var connected := client.connected;
    if connected {
      match client.wa.storeID {
        case Some(id) =>
          var jid := id.text;
          var phoneNumber := id.user;
          var _ := db.SaveSession(sessionID, "WhatsApp", jid, phoneNumber);
        case None =>
      }
    }
    resp := Json(StatusOK, ConnectedBody(connected));
  }
}
