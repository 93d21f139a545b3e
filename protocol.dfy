/**
 * The messaging-protocol library (whatsmeow) as the core sees it. The library
 * itself is not modelled: a client is an object whose answers are fixed in
 * advance (oracles) and whose calls are counted.
 */
module Protocol {
  import opened Common

  /** A protocol address: `user` is the phone-number part, `text` is what the library's `String()` renders. */
  datatype JID = JID(user: string, text: string)

  /** The typed notifications the library delivers to an attached handler. */
  datatype Event =
    | Connected
    | Disconnected
    | LoggedOut
    | QR(codes: seq<string>)
    | ConnectFailure(reason: string)
    | PairSuccess(id: JID)
    | ClientOutdated
    | Message(sender: JID)
    | Other(kind: string)

  /** One item of the library's raw QR stream: an event kind ("code", "success", "timeout", ...) and a code. */
  datatype QRItem = QRItem(event: string, code: string)

  const CodeEvent: string := "code"

  /** What a freshly created library client will answer, fixed when it is created. */
  datatype Behaviour = Behaviour(
    connectFails: bool,       // whether Connect() reports an error
    pollAnswers: seq<bool>,   // successive answers of IsConnected(); false once used up
    qrError: Option<string>,  // the error GetQRChannel() reports, if any
    qrStream: seq<QRItem>,    // the raw QR stream, up to the point where the library closes it
    storeID: Option<JID>)     // the device identity in the client's store, once paired

  class WAClient {
    const connectFails: bool
    const qrError: Option<string>
    const qrStream: seq<QRItem>
    var pollAnswers: seq<bool>
    var storeID: Option<JID>
    var connectCalls: nat
    var pollCalls: nat
    var disconnectCalls: nat

    constructor (b: Behaviour)
      ensures connectFails == b.connectFails && qrError == b.qrError && qrStream == b.qrStream
      ensures pollAnswers == b.pollAnswers && storeID == b.storeID
      ensures connectCalls == 0 && pollCalls == 0 && disconnectCalls == 0
    {
      connectFails, qrError, qrStream := b.connectFails, b.qrError, b.qrStream;
      pollAnswers, storeID := b.pollAnswers, b.storeID;
      connectCalls, pollCalls, disconnectCalls := 0, 0, 0;
    }

    /** The library's connect: returns true when it reports an error. */
    method Connect() returns (err: bool)
      modifies this
      ensures err == connectFails
      ensures connectCalls == old(connectCalls) + 1
      ensures pollAnswers == old(pollAnswers) && storeID == old(storeID)
      ensures pollCalls == old(pollCalls) && disconnectCalls == old(disconnectCalls)
    {
      err := connectFails;
      connectCalls := connectCalls + 1;
    }

    /** The library's connectivity probe: consumes the next scripted answer. */
    method IsConnected() returns (up: bool)
      modifies this
      ensures up == (old(pollAnswers) != [] && old(pollAnswers)[0])
      ensures pollAnswers == if old(pollAnswers) == [] then [] else old(pollAnswers)[1..]
      ensures pollCalls == old(pollCalls) + 1
      ensures connectCalls == old(connectCalls) && disconnectCalls == old(disconnectCalls)
      ensures storeID == old(storeID)
    {
      up := pollAnswers != [] && pollAnswers[0];
      if pollAnswers != [] {
        pollAnswers := pollAnswers[1..];
      }
      pollCalls := pollCalls + 1;
    }

    /** The library's disconnect: only counted. */
    method Disconnect()
      modifies this
      ensures disconnectCalls == old(disconnectCalls) + 1
      ensures connectCalls == old(connectCalls) && pollCalls == old(pollCalls)
      ensures pollAnswers == old(pollAnswers) && storeID == old(storeID)
    {
      disconnectCalls := disconnectCalls + 1;
    }

    /** The library's QR channel: either an error or the raw stream. */
    method GetQRChannel() returns (r: Result<seq<QRItem>, string>)
      ensures r == if qrError.Some? then Err(qrError.value) else Ok(qrStream)
    {
      if qrError.Some? {
        r := Err(qrError.value);
      } else {
        r := Ok(qrStream);
      }
    }
  }
}
