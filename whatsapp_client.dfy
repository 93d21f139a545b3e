/**
 * The connection registry of the panel (`whatsapp.Manager`) and its session
 * handles (`whatsapp.Client`).
 *
 * Concurrency is sequentialised: every background task of the original is a
 * method of its own that the caller invokes when the task would run.
 *  - the event callback attached to the library client is `Client.Relay`; when
 *    it reports `spawnRemoval`, the caller runs `Manager.RemoveClient(id)`;
 *  - the timer set up at creation is `Manager.CleanupCheck`, run when the
 *    grace period (`CleanupTimeout` in the original, two minutes) has elapsed;
 *  - the QR forwarder is `ForwardQR`, run over the raw stream that
 *    `Client.GetQRChannel` hands out.
 */
module WhatsappClient {
  import opened Common
  import opened Protocol
  import opened SessionFiles

  /** How many times `Connect` probes the library before giving up (one second apart). */
  const MaxPolls: nat := 10

  datatype ClientError =
    | SessionsDirFailed(detail: string)
    | StoreFailed(detail: string)
  {
    function Message(): string {
      match this
      case SessionsDirFailed(d) => "erro ao criar diretório de sessões: " + d
      case StoreFailed(d) => "erro ao criar store: " + d
    }
  }

  datatype ConnectError = ConnectFailed | ConnectTimeout

  datatype QRChannelError = NotInitialized | RawChannelFailed(detail: string)
  {
    function Message(): string {
      match this
      case NotInitialized => "cliente WhatsApp não inicializado"
      case RawChannelFailed(d) => d
    }
  }

  datatype SendError = NotConnected | InvalidPhone | SendFailed

  /** A text message handed to the library: recipient address and body. */
  datatype Delivery = Delivery(recipient: string, text: string)

  const UserServer: string := "@s.whatsapp.net"

  /**
   * The outside world a `NewClient` call meets: the generated id, whether
   * creating the sessions directory or the store fails (with the reported
   * detail), and how the new library client will behave.
   */
  datatype ClientEnv = ClientEnv(
    id: string,
    dirError: Option<string>,
    storeError: Option<string>,
    protocol: Behaviour)

  // ---------------------------------------------------------------------
  // Connect: the bounded probe loop

  /** The scripted probe answers left after `k` probes. */
  function Drop(answers: seq<bool>, k: nat): seq<bool> {
    if k >= |answers| then [] else answers[k..]
  }

  /** The position of the first successful probe among the first `tries` (answers past the script are false). */
  function FirstUp(answers: seq<bool>, tries: nat): (r: Option<nat>)
    ensures r.Some? ==> r.value < tries && r.value < |answers| && answers[r.value]
    ensures r.Some? ==> forall j :: 0 <= j < r.value ==> !answers[j]
    ensures r.None? ==> forall j :: 0 <= j < tries && j < |answers| ==> !answers[j]
    decreases tries
  {
    if tries == 0 || answers == [] then None
    else if answers[0] then Some(0)
    else
      match FirstUp(answers[1..], tries - 1)
      case Some(i) => Some(i + 1)
      case None => None
  }

  // ---------------------------------------------------------------------
  // Event relay

  /** The flag a connectivity event forces, if any; every other event leaves it alone. */
  function Forced(e: Event): (r: Option<bool>)
    ensures r.Some? <==> e.Connected? || e.Disconnected? || e.LoggedOut?
    ensures r == Some(true) <==> e.Connected?
  {
    match e
    case Connected => Some(true)
    case Disconnected => Some(false)
    case LoggedOut => Some(false)
    case _ => None
  }

  /** The handle's flag after the relay has seen `e`. */
  function RelayFlag(connected: bool, e: Event): (r: bool)
    ensures Forced(e).Some? ==> r == Forced(e).value
    ensures Forced(e).None? ==> r == connected
  {
    match e
    case Connected => true
    case Disconnected => false
    case LoggedOut => false
    case _ => connected
  }

  /** The flag after the relay has seen a whole stream of events, in order. */
  function RelayAll(connected: bool, es: seq<Event>): (r: bool)
    ensures (forall k :: 0 <= k < |es| ==> Forced(es[k]).None?) ==> r == connected
    ensures connected && (forall k :: 0 <= k < |es| ==> !es[k].Disconnected? && !es[k].LoggedOut?) ==> r
    decreases |es|
  {
    if es == [] then connected else RelayAll(RelayFlag(connected, es[0]), es[1..])
  }

  /** The verdict of the last connectivity event in a stream, searched from the end. */
  function LastForced(es: seq<Event>): Option<bool>
    decreases |es|
  {
    if es == [] then None
    else match Forced(es[|es| - 1])
      case Some(b) => Some(b)
      case None => LastForced(es[..|es| - 1])
  }

  lemma {:induction false} RelayAllSnoc(connected: bool, es: seq<Event>, e: Event)
    ensures RelayAll(connected, es + [e]) == RelayFlag(RelayAll(connected, es), e)
    decreases |es|
  {
    if es == [] {
      assert es + [e] == [e];
      assert [e][1..] == [];
    } else {
      assert (es + [e])[0] == es[0];
      assert (es + [e])[1..] == es[1..] + [e];
      RelayAllSnoc(RelayFlag(connected, es[0]), es[1..], e);
    }
  }

  /**
   * Whatever the interleaving of events, the handle's flag is the verdict of
   * the last Connected/Disconnected/LoggedOut event, or its starting value if
   * there was none.
   */
  lemma {:induction false} RelayAllIsLastForced(connected: bool, es: seq<Event>)
    ensures RelayAll(connected, es) == match LastForced(es) case Some(b) => b case None => connected
    decreases |es|
  {
    if es != [] {
      var init, e := es[..|es| - 1], es[|es| - 1];
      assert es == init + [e];
      RelayAllSnoc(connected, init, e);
      RelayAllIsLastForced(connected, init);
    }
  }

  // ---------------------------------------------------------------------
  // QR forwarding

  predicate IsCode(item: QRItem) {
    item.event == CodeEvent
  }

  /** The codes of the raw stream's "code" items, in stream order. */
  function Codes(raw: seq<QRItem>): (r: seq<string>)
    ensures |r| <= |raw|
    decreases |raw|
  {
    if raw == [] then []
    else (if IsCode(raw[0]) then [raw[0].code] else []) + Codes(raw[1..])
  }

  lemma {:induction false} CodesAppend(a: seq<QRItem>, b: seq<QRItem>)
    ensures Codes(a + b) == Codes(a) + Codes(b)
    decreases |a|
  {
    if a == [] {
      assert a + b == b;
    } else {
      assert (a + b)[0] == a[0];
      assert (a + b)[1..] == a[1..] + b;
      CodesAppend(a[1..], b);
    }
  }

  /** The positions at or after `i` of the "code" items of a raw stream, in increasing order. */
  function PositionsFrom(raw: seq<QRItem>, i: nat): (p: seq<nat>)
    ensures forall k :: 0 <= k < |p| ==> i <= p[k] < |raw| && IsCode(raw[p[k]])
    decreases |raw| - i
  {
    if i >= |raw| then []
    else (if IsCode(raw[i]) then [i] else []) + PositionsFrom(raw, i + 1)
  }

  function CodePositions(raw: seq<QRItem>): seq<nat> {
    PositionsFrom(raw, 0)
  }

  lemma {:induction false} PositionsIncreasing(raw: seq<QRItem>, i: nat)
    ensures forall k, l :: 0 <= k < l < |PositionsFrom(raw, i)| ==> PositionsFrom(raw, i)[k] < PositionsFrom(raw, i)[l]
    decreases |raw| - i
  {
    if i < |raw| {
      PositionsIncreasing(raw, i + 1);
    }
  }

  lemma {:induction false} PositionsCover(raw: seq<QRItem>, i: nat)
    ensures forall j :: i <= j < |raw| && IsCode(raw[j]) ==> j in PositionsFrom(raw, i)
    decreases |raw| - i
  {
    if i < |raw| {
      PositionsCover(raw, i + 1);
    }
  }

  lemma {:induction false} PositionsCarryCodes(raw: seq<QRItem>, i: nat)
    requires i <= |raw|
    ensures |PositionsFrom(raw, i)| == |Codes(raw[i..])|
    ensures forall k :: 0 <= k < |Codes(raw[i..])| ==> raw[PositionsFrom(raw, i)[k]].code == Codes(raw[i..])[k]
    decreases |raw| - i
  {
    if i < |raw| {
      PositionsCarryCodes(raw, i + 1);
      assert raw[i..][0] == raw[i];
      assert raw[i..][1..] == raw[i + 1..];
    }
  }

  /** The positions cover exactly the "code" items, strictly increasing. */
  ghost predicate SelectsCodes(raw: seq<QRItem>, p: seq<nat>) {
    && (forall k :: 0 <= k < |p| ==> p[k] < |raw| && IsCode(raw[p[k]]))
    && (forall k, l :: 0 <= k < l < |p| ==> p[k] < p[l])
    && (forall i :: 0 <= i < |raw| && IsCode(raw[i]) ==> i in p)
  }

  /**
   * The forwarder's output is the ordered subsequence of the raw stream made
   * of the "code" items: one output per code item, in stream order, nothing
   * else.
   */
  lemma CodesAreOrderedSubsequence(raw: seq<QRItem>)
    ensures SelectsCodes(raw, CodePositions(raw))
    ensures |CodePositions(raw)| == |Codes(raw)|
    ensures forall k :: 0 <= k < |Codes(raw)| ==> raw[CodePositions(raw)[k]].code == Codes(raw)[k]
  {
    PositionsIncreasing(raw, 0);
    PositionsCover(raw, 0);
    PositionsCarryCodes(raw, 0);
    assert raw[0..] == raw;
  }

  /** The first n codes, or all of them when there are fewer. */
  function Take(s: seq<string>, n: nat): (r: seq<string>)
    ensures |r| <= n && |r| <= |s|
    ensures forall k :: 0 <= k < |r| ==> r[k] == s[k]
    ensures n <= |s| ==> |r| == n
    ensures n >= |s| ==> r == s
  {
    if n <= |s| then s[..n] else s
  }

  /** What the forwarder leaves on the outward channel. */
  datatype Outlet = Outlet(sent: seq<string>, closed: bool, cancelled: bool)

  /**
   * The forwarder: walks the raw stream, passes on the code of each "code"
   * item and drops the rest. `sendsBeforeDone` is how many sends complete
   * before the context is done; the send after that observes the deadline and
   * ends the task. The outward channel is closed on every exit.
   */
  method ForwardQR(raw: seq<QRItem>, sendsBeforeDone: nat) returns (out: Outlet)
    ensures out.closed
    ensures out.sent == Take(Codes(raw), sendsBeforeDone)
    ensures out.cancelled <==> sendsBeforeDone < |Codes(raw)|
  {
    var sent: seq<string> := [];
    var cancelled := false;
    var i := 0;
    while i < |raw| && !cancelled
      invariant 0 <= i <= |raw|
      invariant !cancelled ==> sent == Codes(raw[..i]) && |sent| <= sendsBeforeDone
      invariant cancelled ==> |Codes(raw[..i])| == sendsBeforeDone + 1 && sent == Codes(raw[..i])[..sendsBeforeDone]
    {
      CodesAppend(raw[..i], [raw[i]]);
      assert raw[..i + 1] == raw[..i] + [raw[i]];
      assert Codes([raw[i]]) == if IsCode(raw[i]) then [raw[i].code] else [] by {
        assert [raw[i]][1..] == [];
      }
      if IsCode(raw[i]) {
        if |sent| < sendsBeforeDone {
          sent := sent + [raw[i].code];
        } else {
          cancelled := true;
        }
      }
      i := i + 1;
    }
    CodesAppend(raw[..i], raw[i..]);
    assert raw[..i] + raw[i..] == raw;
    out := Outlet(sent, true, cancelled);
  }

  /** The outcome of the pairing handler's single read of the outward channel. */
  datatype QRWait = CodeReceived(code: string) | ChannelClosed | DeadlineExpired

  /**
   * One read of the outward channel, racing the deadline (`deadlineFirst`):
   * the first code if there is one, the closed-channel case otherwise.
   */
  function ConsumerRead(out: Outlet, deadlineFirst: bool): (w: QRWait)
    ensures deadlineFirst ==> w.DeadlineExpired?
    ensures !deadlineFirst && out.closed ==> !w.DeadlineExpired?
    ensures w.CodeReceived? ==> out.sent != [] && w.code == out.sent[0]
    ensures w.ChannelClosed? ==> out.sent == []
  {
    if deadlineFirst then DeadlineExpired
    else if out.sent != [] then CodeReceived(out.sent[0])
    else if out.closed then ChannelClosed
    else DeadlineExpired
  }

  /** Nothing before the first recorded position is a "code" item. */
  lemma {:induction false} PositionsFromStartAtFirstCode(raw: seq<QRItem>, i: nat)
    ensures PositionsFrom(raw, i) != [] ==> forall j :: i <= j < PositionsFrom(raw, i)[0] ==> !IsCode(raw[j])
    decreases |raw| - i
  {
    if i < |raw| && !IsCode(raw[i]) {
      PositionsFromStartAtFirstCode(raw, i + 1);
    }
  }

  /** The first "code" item of a raw stream that has one. */
  lemma FirstCodeItem(raw: seq<QRItem>) returns (i: nat)
    requires Codes(raw) != []
    ensures i < |raw| && IsCode(raw[i]) && raw[i].code == Codes(raw)[0]
    ensures forall j :: 0 <= j < i ==> !IsCode(raw[j])
  {
    PositionsCarryCodes(raw, 0);
    PositionsFromStartAtFirstCode(raw, 0);
    assert raw[0..] == raw;
    i := PositionsFrom(raw, 0)[0];
  }

  /**
   * When it wins the race against the deadline, the pairing consumer's single
   * read yields the stream's first code (see FirstCodeItem), or the closed
   * channel when the forwarder sent nothing: no code in the stream, or the
   * deadline before the first send.
   */
  lemma ConsumerReadsFirstCode(raw: seq<QRItem>, out: Outlet, n: nat)
    requires out.closed && out.sent == Take(Codes(raw), n)
    ensures ConsumerRead(out, false).ChannelClosed? <==> (n == 0 || Codes(raw) == [])
    ensures ConsumerRead(out, false).CodeReceived? <==> (n > 0 && Codes(raw) != [])
    ensures ConsumerRead(out, false).CodeReceived? ==> ConsumerRead(out, false).code == Codes(raw)[0]
  {
    if n > 0 && Codes(raw) != [] {
      assert out.sent[0] == Codes(raw)[0];
    } else {
      assert out.sent == [];
    }
  }

  // ---------------------------------------------------------------------
  // The session handle

  class Client {
    const id: string
    const wa: WAClient?
    var connected: bool

    constructor (id: string, wa: WAClient?)
      ensures this.id == id && this.wa == wa && !connected
    {
      this.id, this.wa := id, wa;
      connected := false;
    }

    /** The only writer of the flag; reports whether the value changed (the edge the original logs). */
    method SetConnected(status: bool) returns (changed: bool)
      modifies this
      ensures connected == status
      ensures changed <==> old(connected) != status
    {
      var oldStatus := connected;
      connected := status;
      changed := oldStatus != status;
    }

    /**
     * No-op when already connected; otherwise the library's connect, then up
     * to MaxPolls probes, setting the flag only when a probe succeeds.
     */
    method Connect() returns (err: Option<ConnectError>)
      requires wa != null
      modifies this, wa
      ensures wa.disconnectCalls == old(wa.disconnectCalls) && wa.storeID == old(wa.storeID)
      ensures old(connected) ==> err == None && connected
      ensures old(connected) ==> wa.connectCalls == old(wa.connectCalls) && wa.pollCalls == old(wa.pollCalls)
                                 && wa.pollAnswers == old(wa.pollAnswers)
      ensures !old(connected) ==> wa.connectCalls == old(wa.connectCalls) + 1
      ensures !old(connected) && wa.connectFails ==>
                err == Some(ConnectFailed) && !connected
                && wa.pollCalls == old(wa.pollCalls) && wa.pollAnswers == old(wa.pollAnswers)
      ensures !old(connected) && !wa.connectFails ==>
                match FirstUp(old(wa.pollAnswers), MaxPolls)
                case Some(k) =>
                  err == None && connected
                  && wa.pollCalls == old(wa.pollCalls) + k + 1 && wa.pollAnswers == Drop(old(wa.pollAnswers), k + 1)
                case None =>
                  err == Some(ConnectTimeout) && !connected
                  && wa.pollCalls == old(wa.pollCalls) + MaxPolls && wa.pollAnswers == Drop(old(wa.pollAnswers), MaxPolls)
    {
      var alreadyConnected := connected;
      if alreadyConnected {
        return None;
      }
      var failed := wa.Connect();
      if failed {
        return Some(ConnectFailed);
      }
      ghost var answers := wa.pollAnswers;
      ghost var calls0 := wa.pollCalls;
      var up := false;
      var i := 0;
      while i < MaxPolls && !up
        invariant 0 <= i <= MaxPolls
        invariant wa.pollAnswers == Drop(answers, i) && wa.pollCalls == calls0 + i
        invariant wa.connectCalls == old(wa.connectCalls) + 1
        invariant wa.disconnectCalls == old(wa.disconnectCalls) && wa.storeID == old(wa.storeID)
        invariant !connected
        invariant up ==> 1 <= i && FirstUp(answers, MaxPolls) == Some(i - 1)
        invariant !up ==> FirstUp(answers, i) == None
      {
        assert Drop(answers, i) != [] ==> Drop(answers, i)[0] == answers[i] && Drop(answers, i)[1..] == Drop(answers, i + 1);
        up := wa.IsConnected();
        if !up {
          assert FirstUp(answers, i + 1) == None;
        } else {
          assert FirstUp(answers, MaxPolls) == Some(i) by {
            assert answers[i];
          }
        }
        i := i + 1;
      }
      if up {
        var _ := SetConnected(true);
        err := None;
      } else {
        err := Some(ConnectTimeout);
      }
    }

    /** Calls the library's disconnect only when the flag was set; the flag is clear afterwards. */
    method Disconnect()
      requires wa != null
      modifies this, wa
      ensures !connected
      ensures wa.disconnectCalls == old(wa.disconnectCalls) + (if old(connected) then 1 else 0)
      ensures wa.connectCalls == old(wa.connectCalls) && wa.pollCalls == old(wa.pollCalls)
      ensures wa.pollAnswers == old(wa.pollAnswers) && wa.storeID == old(wa.storeID)
    {
      var wasConnected := connected;
      if wasConnected {
        wa.Disconnect();
        var _ := SetConnected(false);
      }
    }

    /**
     * The event callback attached to the library client. `spawnRemoval`
     * reports the background `RemoveClient` the original starts on logout.
     */
    method Relay(e: Event) returns (spawnRemoval: bool)
      modifies this
      ensures connected == RelayFlag(old(connected), e)
      ensures spawnRemoval <==> e.LoggedOut?
    {
      spawnRemoval := false;
      match e {
        case Connected =>
          var _ := SetConnected(true);
        case Disconnected =>
          var _ := SetConnected(false);
        case LoggedOut =>
          var _ := SetConnected(false);
          spawnRemoval := true;
        case QR(_) =>
        case ConnectFailure(_) =>
        case _ =>
      }
    }

    /** The raw QR stream that the forwarder consumes, or why it cannot be had. */
    method GetQRChannel() returns (r: Result<seq<QRItem>, QRChannelError>)
      ensures wa == null ==> r == Err(NotInitialized)
      ensures wa != null && wa.qrError.Some? ==> r == Err(RawChannelFailed(wa.qrError.value))
      ensures wa != null && wa.qrError.None? ==> r == Ok(wa.qrStream)
    {
      if wa == null {
        return Err(NotInitialized);
      }
      var raw := wa.GetQRChannel();
      match raw {
        case Err(d) => r := Err(RawChannelFailed(d));
        case Ok(s) => r := Ok(s);
      }
    }

    /**
     * Refuses when the handle is not connected; otherwise addresses the phone
     * as a user address and hands the text to the library. Address parsing and
     * sending are the library's, and their failures come in as `parseFails`
     * and `sendFails`.
     */
    method SendTextMessage(phoneNumber: string, message: string, parseFails: bool, sendFails: bool)
      returns (r: Result<Delivery, SendError>)
      ensures r.Ok? ==> connected && r.value == Delivery(phoneNumber + UserServer, message)
      ensures !connected ==> r == Err(NotConnected)
      ensures connected ==> r == if parseFails then Err(InvalidPhone)
                                 else if sendFails then Err(SendFailed)
                                 else Ok(Delivery(phoneNumber + UserServer, message))
    {
      if !connected {
        return Err(NotConnected);
      }
      if parseFails {
        return Err(InvalidPhone);
      }
      if sendFails {
        return Err(SendFailed);
      }
      r := Ok(Delivery(phoneNumber + UserServer, message));
    }
  }

  // ---------------------------------------------------------------------
  // The registry

  class Manager {
    var clients: map<string, Client>

    /** Every entry is filed under its own id, has a library client, and owns it alone. */
    ghost predicate Valid()
      reads this
    {
      && (forall k :: k in clients ==> clients[k].id == k && clients[k].wa != null)
      && (forall k, l :: k in clients && l in clients && k != l ==> clients[k].wa != clients[l].wa)
    }

    /** The handle filed under `id` and its library client: what removing `id` may touch. */
    ghost function HandleOf(id: string): set<object>
      reads this
      requires Valid()
    {
      if id in clients then {clients[id], clients[id].wa as WAClient} else {}
    }

    /** `NewManager`: an empty registry. */
    constructor ()
      ensures clients == map[] && Valid()
    {
      clients := map[];
    }

    /**
     * Creates the session's storage, a library client and its handle (not
     * connected), and files the handle under the generated id. On a storage
     * failure nothing is created and the registry is unchanged. The id is the
     * generator's: filing is a plain map assignment.
     */
    method NewClient(env: ClientEnv, disk: Disk) returns (r: Result<Client, ClientError>)
      requires Valid()
      modifies this, disk
      ensures Valid()
      ensures env.dirError.Some? ==> r == Err(SessionsDirFailed(env.dirError.value))
      ensures env.dirError.None? && env.storeError.Some? ==> r == Err(StoreFailed(env.storeError.value))
      ensures r.Ok? <==> env.dirError.None? && env.storeError.None?
      ensures r.Err? ==> clients == old(clients) && disk.files == old(disk.files)
      ensures r.Ok? ==>
                var c := r.value;
                && fresh(c) && fresh(c.wa) && c.wa != null
                && c.id == env.id && !c.connected
                && clients == old(clients)[env.id := c]
                && disk.files == old(disk.files) + {SessionPath(env.id)}
      ensures r.Ok? ==> var w := r.value.wa;
                w != null && w.connectFails == env.protocol.connectFails && w.qrError == env.protocol.qrError
                && w.qrStream == env.protocol.qrStream && w.pollAnswers == env.protocol.pollAnswers
                && w.storeID == env.protocol.storeID
                && w.connectCalls == 0 && w.pollCalls == 0 && w.disconnectCalls == 0
      ensures r.Ok? && env.id !in old(clients) ==> |clients| == |old(clients)| + 1
    {
      if env.dirError.Some? {
        return Err(SessionsDirFailed(env.dirError.value));
      }
      if env.storeError.Some? {
        return Err(StoreFailed(env.storeError.value));
      }
      disk.Create(SessionPath(env.id));
      var w := new WAClient(env.protocol);
      var c := new Client(env.id, w);
      clients := clients[env.id := c];
      r := Ok(c);
    }

    /**
     * The single removal path: if `id` is filed, disconnect its handle and
     * drop the entry; otherwise nothing happens.
     */
    method RemoveClient(id: string)
      requires Valid()
      modifies this, HandleOf(id)
      ensures Valid()
      ensures clients == old(clients) - {id}
      ensures id in old(clients) ==>
                var c := old(clients)[id];
                && !c.connected
                && c.wa.disconnectCalls == old(c.wa.disconnectCalls) + (if old(c.connected) then 1 else 0)
                && c.wa.connectCalls == old(c.wa.connectCalls) && c.wa.pollCalls == old(c.wa.pollCalls)
                && c.wa.pollAnswers == old(c.wa.pollAnswers) && c.wa.storeID == old(c.wa.storeID)
    {
      if id in clients {
        var c := clients[id];
        c.Disconnect();
        clients := clients - {id};
      }
    }

    /**
     * The deferred check run once the grace period has elapsed: a handle still
     * filed and not connected is removed, its library client is disconnected
     * once more, and its storage file is deleted (a failed deletion changes
     * nothing else). Otherwise nothing changes.
     */
    method CleanupCheck(id: string, disk: Disk, removeFault: bool) returns (removed: bool)
      requires Valid()
      modifies this, disk, HandleOf(id)
      ensures Valid()
      ensures removed <==> id in old(clients) && !old(clients[id].connected)
      ensures removed ==>
                var c := old(clients)[id];
                && clients == old(clients) - {id}
                && !c.connected
                && c.wa.disconnectCalls == old(c.wa.disconnectCalls) + 1
                && c.wa.connectCalls == old(c.wa.connectCalls) && c.wa.pollCalls == old(c.wa.pollCalls)
                && c.wa.pollAnswers == old(c.wa.pollAnswers) && c.wa.storeID == old(c.wa.storeID)
                && disk.files == if removeFault then old(disk.files) else old(disk.files) - {SessionPath(id)}
      ensures !removed ==> clients == old(clients) && disk.files == old(disk.files)
      ensures !removed && id in clients ==>
                clients[id].connected == old(clients[id].connected)
                && clients[id].wa.disconnectCalls == old(clients[id].wa.disconnectCalls)
                && clients[id].wa.connectCalls == old(clients[id].wa.connectCalls)
                && clients[id].wa.pollCalls == old(clients[id].wa.pollCalls)
                && clients[id].wa.pollAnswers == old(clients[id].wa.pollAnswers)
                && clients[id].wa.storeID == old(clients[id].wa.storeID)
    {
      removed := false;
      if id in clients {
        var c := clients[id];
        if !c.connected {
          RemoveClient(id);
          c.wa.Disconnect();
          var _ := disk.Remove(SessionPath(id), removeFault);
          removed := true;
        }
      }
    }
  }

  // ---------------------------------------------------------------------
  // Scenarios composed from the operations above

  /** Setting the flag twice to the same value: the second call reports no change. */
  method SetConnectedTwice(c: Client, status: bool) returns (first: bool, second: bool)
    modifies c
    ensures c.connected == status
    ensures first <==> old(c.connected) != status
    ensures !second
  {
    first := c.SetConnected(status);
    second := c.SetConnected(status);
  }

  /** A second `Connect` after a successful one is a no-op that reports success. */
  method ConnectTwice(c: Client) returns (first: Option<ConnectError>, second: Option<ConnectError>)
    requires c.wa != null
    modifies c, c.wa
    ensures first == None ==> second == None && c.connected
    ensures first == None ==> c.wa.connectCalls == old(c.wa.connectCalls) + (if old(c.connected) then 0 else 1)
  {
    first := c.Connect();
    ghost var calls := c.wa.connectCalls;
    second := c.Connect();
    assert first == None ==> c.wa.connectCalls == calls;
  }

  /** Removing twice has the effect of removing once. */
  method RemoveClientTwice(m: Manager, id: string)
    requires m.Valid()
    modifies m, m.HandleOf(id)
    ensures m.Valid()
    ensures m.clients == old(m.clients) - {id}
    ensures id in old(m.clients) ==>
              var c := old(m.clients)[id];
              && !c.connected
              && c.wa.disconnectCalls == old(c.wa.disconnectCalls) + (if old(c.connected) then 1 else 0)
              && c.wa.connectCalls == old(c.wa.connectCalls) && c.wa.pollCalls == old(c.wa.pollCalls)
              && c.wa.pollAnswers == old(c.wa.pollAnswers) && c.wa.storeID == old(c.wa.storeID)
  {
    m.RemoveClient(id);
    m.RemoveClient(id);
  }

  /**
   * A logout seen by a filed handle, followed by the removal it spawns: the
   * id is gone, and the library's disconnect is not called, because the relay
   * has already cleared the flag the removal consults.
   */
  method LogoutThenRemove(m: Manager, id: string) returns (spawned: bool)
    requires m.Valid() && id in m.clients
    modifies m, m.HandleOf(id)
    ensures m.Valid()
    ensures spawned
    ensures id !in m.clients && m.clients == old(m.clients) - {id}
    ensures old(m.clients)[id].wa.disconnectCalls == old(m.clients[id].wa.disconnectCalls)
  {
    var c := m.clients[id];
    spawned := c.Relay(LoggedOut);
    if spawned {
      m.RemoveClient(id);
    }
  }

  /** A handle that has seen a Connected event survives the deferred cleanup untouched. */
  method ConnectedSurvivesCleanup(m: Manager, id: string, disk: Disk, removeFault: bool) returns (removed: bool)
    requires m.Valid() && id in m.clients
    modifies m, disk, m.HandleOf(id)
    ensures m.Valid()
    ensures !removed
    ensures m.clients == old(m.clients) && disk.files == old(disk.files)
    ensures m.clients[id].connected
    ensures var w := old(m.clients[id].wa);
              && w.connectCalls == old(w.connectCalls) && w.pollCalls == old(w.pollCalls)
              && w.disconnectCalls == old(w.disconnectCalls)
              && w.pollAnswers == old(w.pollAnswers) && w.storeID == old(w.storeID)
  {
    var c := m.clients[id];
    var _ := c.Relay(Connected);
    removed := m.CleanupCheck(id, disk, removeFault);
  }
}
