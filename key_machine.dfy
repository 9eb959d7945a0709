/**
 * The API-key relay client of peer/peer.js as a state machine: the same
 * connection logic as peer.js, plus `configure`, the password-dependent
 * framing of relay messages, and the session cache `peer.binary.cache`
 * that the offer/answer/candidate handler consults. The class in KeyPeer
 * is proved to follow these functions.
 */
module KeyMachine {
  import opened Wrappers
  import opened Relay

  /** `peer.prefs` (the ICE servers by their URLs). */
  datatype Prefs = Prefs(
    password: string, apiKey: string, channel: int, server: string, reconnect: seq<int>,
    iceServers: seq<string>, chunkSize: nat, binaryTimeout: int)

  /** The object `configure` assigns over on its first call. */
  const DefaultPrefs: Prefs :=
    Prefs("", "", 1, "wss://connect.websocket.in/v3/", [1000, 2000, 5000, 10000, 40000],
          ["stun:stun.services.mozilla.com"], 1024, 30000)

  /** The argument of `configure`: `None` is a key the object does not have. */
  datatype Patch = Patch(
    password: Option<string>, apiKey: Option<string>, channel: Option<int>,
    server: Option<string>, reconnect: Option<seq<int>>, iceServers: Option<seq<string>>,
    chunkSize: Option<nat>, binaryTimeout: Option<int>)

  const Placeholder: string := "[apiKey]"

  /** The prefix that marks an encrypted relay frame. */
  const SealedPrefix: string := "data:application/octet-binary;base64,"

  const RestartDelay: int := 1000

  datatype TimerAction = Reconnect | Resume
  datatype Timer = Timer(delay: int, action: TimerAction)
  datatype Socket = Socket(url: string, serial: nat)

  /**
   * The host capabilities the client calls: `JSON.parse` (`None` when it
   * throws), `JSON.stringify`, and `safe.encrypt`/`safe.decrypt` under a
   * password (`None` when decryption fails).
   */
  datatype Codec = Codec(
    parse: string -> Option<Msg>, stringify: Msg -> string,
    encrypt: (string, string) -> string, decrypt: (string, string) -> Option<string>)

  /** A call made on one of the client's RTCPeerConnection objects, by creation number. */
  datatype RtcOp =
    | SetRemote(description: Option<string>)
    | AddCandidate(candidate: Option<string>)
    | CloseRtc
  datatype RtcCall = RtcCall(rtc: nat, op: RtcOp)

  /** The fields of the singleton, plus the frames handed to `wss.send` and the calls made on RTC objects. */
  datatype Conn = Conn(
    status: Status, error: string, timer: Option<Timer>, offline: bool, reconnect: int,
    events: map<string, seq<Callback>>, emitted: seq<Emission>,
    prefs: Option<Prefs>, id: Option<string>, wss: Option<Socket>, sockets: nat,
    outbox: seq<string>, sessions: map<string, nat>, rtcs: nat, rtcCalls: seq<RtcCall>)

  function Initial(id: Option<string>): Conn {
    Conn(Disconnected, "", None, false, 0, map[], [], None, id, None, 0, [], map[], 0, [])
  }

  // ---------------------------------------------------------------------------
  // configure

  function Pick<T>(v: Option<T>, previous: T): T {
    match v
    case Some(x) => x
    case None => previous
  }

  /** `Object.assign(base, ps)`. */
  function Merge(base: Prefs, ps: Patch): Prefs {
    Prefs(Pick(ps.password, base.password), Pick(ps.apiKey, base.apiKey),
          Pick(ps.channel, base.channel), Pick(ps.server, base.server),
          Pick(ps.reconnect, base.reconnect), Pick(ps.iceServers, base.iceServers),
          Pick(ps.chunkSize, base.chunkSize), Pick(ps.binaryTimeout, base.binaryTimeout))
  }

  /** `configure(ps)`: merge over the current prefs, or over the defaults on the first call. */
  function Configure(c: Conn, ps: Patch): Conn {
    c.(prefs := Some(Merge(c.prefs.GetOr(DefaultPrefs), ps)))
  }

  /** The patch carrying the keys of both, the second winning. */
  function Overlay(a: Patch, b: Patch): Patch {
    Patch(if b.password.Some? then b.password else a.password,
          if b.apiKey.Some? then b.apiKey else a.apiKey,
          if b.channel.Some? then b.channel else a.channel,
          if b.server.Some? then b.server else a.server,
          if b.reconnect.Some? then b.reconnect else a.reconnect,
          if b.iceServers.Some? then b.iceServers else a.iceServers,
          if b.chunkSize.Some? then b.chunkSize else a.chunkSize,
          if b.binaryTimeout.Some? then b.binaryTimeout else a.binaryTimeout)
  }

  /** A key present in the patch takes its value; every other key keeps the previous one. */
  lemma MergeKeepsOtherKeys(base: Prefs, ps: Patch)
    ensures ps.password.Some? ==> Merge(base, ps).password == ps.password.value
    ensures ps.password.None? ==> Merge(base, ps).password == base.password
    ensures ps.apiKey.Some? ==> Merge(base, ps).apiKey == ps.apiKey.value
    ensures ps.apiKey.None? ==> Merge(base, ps).apiKey == base.apiKey
    ensures ps.server.Some? ==> Merge(base, ps).server == ps.server.value
    ensures ps.server.None? ==> Merge(base, ps).server == base.server
    ensures ps.reconnect.Some? ==> Merge(base, ps).reconnect == ps.reconnect.value
    ensures ps.reconnect.None? ==> Merge(base, ps).reconnect == base.reconnect
    ensures ps.chunkSize.Some? ==> Merge(base, ps).chunkSize == ps.chunkSize.value
    ensures ps.chunkSize.None? ==> Merge(base, ps).chunkSize == base.chunkSize
    ensures ps.channel.Some? ==> Merge(base, ps).channel == ps.channel.value
    ensures ps.channel.None? ==> Merge(base, ps).channel == base.channel
    ensures ps.iceServers.Some? ==> Merge(base, ps).iceServers == ps.iceServers.value
    ensures ps.iceServers.None? ==> Merge(base, ps).iceServers == base.iceServers
    ensures ps.binaryTimeout.Some? ==> Merge(base, ps).binaryTimeout == ps.binaryTimeout.value
    ensures ps.binaryTimeout.None? ==> Merge(base, ps).binaryTimeout == base.binaryTimeout
  {
  }

  /** Two `configure` calls equal one with the overlaid patch. */
  lemma ConfigureTwice(c: Conn, a: Patch, b: Patch)
    ensures Configure(Configure(c, a), b) == Configure(c, Overlay(a, b))
  {
  }

  /** The first `configure` starts from the defaults; `configure` with no keys only fills in the defaults. */
  lemma ConfigureFirst(c: Conn, ps: Patch)
    requires c.prefs.None?
    ensures Configure(c, ps).prefs == Some(Merge(DefaultPrefs, ps))
  {
  }

  // ---------------------------------------------------------------------------
  // Frames

  predicate StartsWith(s: string, p: string) {
    |p| <= |s| && s[..|p|] == p
  }

  /** An inbound frame is decrypted only when a password is set and the frame carries the prefix. */
  predicate ShouldDecrypt(password: string, data: string) {
    password != "" && StartsWith(data, SealedPrefix)
  }

  /** The message an inbound frame yields, or `None` when decryption or parsing throws. */
  function Decode(codec: Codec, password: string, data: string): Option<Msg> {
    if ShouldDecrypt(password, data) then
      match codec.decrypt(password, data)
      case None => None
      case Some(plain) => codec.parse(plain)
    else codec.parse(data)
  }

  /** The frame `send(o)` writes: the JSON text, encrypted when a password is set. */
  function Encode(codec: Codec, password: string, o: Msg): string {
    var text := codec.stringify(o);
    if password != "" then codec.encrypt(password, text) else text
  }

  /** The laws the host's JSON and cipher are expected to keep. */
  ghost predicate Lawful(codec: Codec) {
    && (forall o :: codec.parse(codec.stringify(o)) == Some(o))
    && (forall p, text :: p != "" ==> StartsWith(codec.encrypt(p, text), SealedPrefix))
    && (forall p, text :: p != "" ==> codec.decrypt(p, codec.encrypt(p, text)) == Some(text))
  }

  /** Under lawful capabilities every frame the client writes decodes back to the message, with or without a password. */
  lemma FrameRoundTrip(codec: Codec, password: string, o: Msg)
    requires Lawful(codec)
    ensures Decode(codec, password, Encode(codec, password, o)) == Some(o)
  {
    if password != "" {
      var text := codec.stringify(o);
      assert StartsWith(codec.encrypt(password, text), SealedPrefix);
      assert codec.decrypt(password, codec.encrypt(password, text)) == Some(text);
    }
  }

  /** With a password set, a frame without the prefix is still parsed as plain JSON. */
  lemma PlainFramesAcceptedUnderPassword(codec: Codec, password: string, data: string)
    requires !StartsWith(data, SealedPrefix)
    ensures Decode(codec, password, data) == codec.parse(data)
  {
  }

  // ---------------------------------------------------------------------------
  // Connection

  function Emit(c: Conn, e: Event): Conn {
    c.(emitted := c.emitted + [Emission(e, Listeners(c.events, Name(e)))])
  }

  function On(c: Conn, name: string, cb: Callback): Conn {
    c.(events := Register(c.events, name, cb))
  }

  /** `peer.prefs.reconnect`; before the first `configure` there is no socket, so no listener reads it. */
  function Schedule(c: Conn): seq<int> {
    match c.prefs
    case Some(p) => p.reconnect
    case None => []
  }

  /** The `status` setter with the reset and reconnect listeners (lines 141-156). */
  function SetStatus(c: Conn, val: Status): Conn {
    if val == c.status then c
    else
      var c1 := Emit(c.(status := val), StatusChanged(val, val));
      if val == Connected then c1.(reconnect := 0)
      else if val == Disconnected then
        c1.(timer := Some(Timer(Delay(Schedule(c), c.reconnect), Reconnect)),
            reconnect := NextAttempt(Schedule(c), c.reconnect))
      else c1
  }

  function SetError(c: Conn, val: string): Conn {
    if val == c.error then c else Emit(c, ErrorRaised(val)).(error := val)
  }

  function ServerUrl(p: Prefs): string {
    ReplaceFirst(p.server, Placeholder, p.apiKey)
  }

  /**
   * `socket()`: CONNECTING, cancel the pending timer, open a new socket.
   * `built` says whether the host's `WebSocket` constructor accepts the
   * URL; when it throws, the status and the timer are already changed,
   * `wss` keeps its previous value and the exception reaches the caller.
   */
  function OpenSocket(c: Conn, built: bool): Conn
    requires c.prefs.Some?
  {
    var c1 := SetStatus(c, Connecting).(timer := None);
    if built then c1.(wss := Some(Socket(ServerUrl(c.prefs.value), c1.sockets)), sockets := c1.sockets + 1)
    else c1
  }

  /** `validate()`; before the first `configure` reading `prefs.apiKey` throws before anything changes. */
  predicate Gate(c: Conn, online: bool) {
    c.prefs.Some? && Validate(c.prefs.value.apiKey, c.offline, online, c.status)
  }

  /**
   * `connect(reason)`. The exception of a rejected URL propagates to the
   * caller; no caller here does anything after `connect`, so only the state
   * it leaves matters.
   */
  function Connect(c: Conn, online: bool, built: bool): Conn {
    if Gate(c, online) then OpenSocket(c, built) else c
  }

  /** `disconnect()`: the failure of `wss.close()` is caught, so the status is always set. */
  function Disconnect(c: Conn): Conn {
    SetStatus(c, Disconnected)
  }

  /** `send(o)`: any failure (no prefs, no socket) is caught and logged. */
  function Send(codec: Codec, c: Conn, o: Msg): Conn {
    if c.prefs.None? || c.wss.None? then c
    else c.(outbox := c.outbox + [Encode(codec, c.prefs.value.password, o)])
  }

  function Shutdown(c: Conn): Conn {
    Disconnect(Emit(c.(offline := true), ShutdownRequested))
  }

  function Restart(c: Conn): Conn {
    Shutdown(c).(timer := Some(Timer(RestartDelay, Resume)))
  }

  function FireTimer(c: Conn, online: bool, built: bool): Conn {
    match c.timer
    case None => c
    case Some(t) =>
      if t.action == Reconnect then Connect(c.(timer := None), online, built)
      else Connect(c.(timer := None, offline := false), online, built)
  }

  // ---------------------------------------------------------------------------
  // The session cache and the signalling listener

  /**
   * `peer.binary(...)` up to the offer: a new RTC object cached under
   * `fileID`, and the `rtc-offer` sent. Before the first `configure`,
   * reading `peer.prefs.iceServers` throws first and nothing changes.
   */
  function StartTransfer(codec: Codec, c: Conn, fileID: string, to: Option<string>, size: nat, offer: string): Conn {
    if c.prefs.None? then c
    else
      var c1 := c.(sessions := c.sessions[fileID := c.rtcs], rtcs := c.rtcs + 1);
      Send(codec, c1, Blank.(from := c.id, to := to, fileID := Some(fileID), kind := Some("rtc-offer"),
                             offer := Some(offer), size := Some(size)))
  }

  /** `rtc.onicecandidate`: a discovered candidate is relayed; the final `null` is not. */
  function LocalCandidate(codec: Codec, c: Conn, fileID: Option<string>, to: Option<string>, candidate: Option<string>): Conn {
    if candidate.None? then c
    else Send(codec, c, Blank.(from := c.id, to := to, fileID := fileID, kind := Some("rtc-candidate"),
                              candidate := candidate))
  }

  /**
   * The `message` listener of lines 243-316; `answer` is what
   * `rtc.createAnswer()` yields for an offer. An offer addressed here
   * caches a new RTC object, applies the offer and sends the answer back;
   * an answer or candidate addressed here is applied to the cached object
   * for its `fileID`, if there is one.
   */
  function Signal(codec: Codec, c: Conn, request: Msg, answer: string): Conn {
    if request.kind == Some("rtc-offer") && c.id == request.to then
      var key := Key(request.fileID);
      var c1 := c.(sessions := c.sessions[key := c.rtcs], rtcs := c.rtcs + 1,
                   rtcCalls := c.rtcCalls + [RtcCall(c.rtcs, SetRemote(request.offer))]);
      Send(codec, c1, Blank.(from := c.id, to := request.from, fileID := request.fileID,
                             kind := Some("rtc-answer"), answer := Some(answer)))
    else if request.kind == Some("rtc-answer") && c.id == request.to then
      var key := Key(request.fileID);
      if key in c.sessions then c.(rtcCalls := c.rtcCalls + [RtcCall(c.sessions[key], SetRemote(request.answer))])
      else c
    else if request.kind == Some("rtc-candidate") && c.id == request.to then
      var key := Key(request.fileID);
      if key in c.sessions then c.(rtcCalls := c.rtcCalls + [RtcCall(c.sessions[key], AddCandidate(request.candidate))])
      else c
    else c
  }

  /** A channel closed (either side) or the connection failed: the RTC object is closed and the entry removed. */
  function DropSession(c: Conn, key: string, rtc: nat): Conn {
    c.(sessions := c.sessions - {key}, rtcCalls := c.rtcCalls + [RtcCall(rtc, CloseRtc)])
  }

  /** The sender's timeout: the RTC object is closed, the entry stays. */
  function TimeOut(c: Conn, rtc: nat): Conn {
    c.(rtcCalls := c.rtcCalls + [RtcCall(rtc, CloseRtc)])
  }

  /**
   * `wss.onmessage`: decode; an `error` sets the error and shuts down; the
   * message is then emitted, reaching the signalling listener first.
   */
  function Receive(codec: Codec, c: Conn, data: string, answer: string): Conn {
    var password := if c.prefs.Some? then c.prefs.value.password else "";
    if c.prefs.None? then c
    else
      match Decode(codec, password, data)
      case None => c
      case Some(request) =>
        var c1 := if Truthy(request.error) then Shutdown(SetError(c, request.error.value)) else c;
        Emit(Signal(codec, c1, request, answer), MessageReceived(request))
  }

  datatype Input =
    | CallOn(name: string, cb: Callback)
    | CallConfigure(ps: Patch)
    | CallConnect(online: bool, built: bool)
    | CallDisconnect
    | CallSend(o: Msg)
    | CallShutdown
    | CallRestart
    | TimerFired(online: bool, built: bool)
    | SocketOpened
    | SocketClosed
    | FrameArrived(data: string, answer: string)
    | CallBinary(newID: string, target: Option<string>, size: nat, offer: string)
    | CandidateFound(session: Option<string>, recipient: Option<string>, candidate: Option<string>)
    | ChannelClosed(key: string, rtc: nat)
    | ConnectionFailed(key: string, rtc: nat)
    | TransferTimedOut(rtc: nat)

  /** One input; socket callbacks only ever come from an existing socket. */
  function Apply(codec: Codec, c: Conn, i: Input): Conn {
    match i
    case CallOn(name, cb) => On(c, name, cb)
    case CallConfigure(ps) => Configure(c, ps)
    case CallConnect(online, built) => Connect(c, online, built)
    case CallDisconnect => Disconnect(c)
    case CallSend(o) => Send(codec, c, o)
    case CallShutdown => Shutdown(c)
    case CallRestart => Restart(c)
    case TimerFired(online, built) => FireTimer(c, online, built)
    case SocketOpened => if c.wss.Some? then SetStatus(c, Connected) else c
    case SocketClosed => if c.wss.Some? then SetStatus(c, Disconnected) else c
    case FrameArrived(data, answer) => Receive(codec, c, data, answer)
    case CallBinary(fileID, to, size, offer) => StartTransfer(codec, c, fileID, to, size, offer)
    case CandidateFound(fileID, to, candidate) => LocalCandidate(codec, c, fileID, to, candidate)
    case ChannelClosed(key, rtc) => DropSession(c, key, rtc)
    case ConnectionFailed(key, rtc) => DropSession(c, key, rtc)
    case TransferTimedOut(rtc) => TimeOut(c, rtc)
  }

  function Run(codec: Codec, c: Conn, inputs: seq<Input>): Conn
    decreases |inputs|
  {
    if inputs == [] then c else Run(codec, Apply(codec, c, inputs[0]), inputs[1..])
  }

  /**
   * What every reachable state satisfies: the backoff index never drops
   * below -1 (it is -1 only while the schedule is empty), a socket exists
   * only once prefs do and exactly when one was opened, every cached RTC object was created by the client, and the emitted
   * statuses never repeat a value and end at the current one.
   */
  ghost predicate Inv(c: Conn) {
    && c.reconnect >= -1
    && (c.wss.Some? ==> c.prefs.Some?)
    && (c.wss.Some? <==> c.sockets > 0)
    && (forall k :: k in c.sessions ==> c.sessions[k] < c.rtcs)
    && TrailEndsAt(c.emitted, c.status)
  }

  lemma InitialInv(id: Option<string>)
    ensures Inv(Initial(id))
  {
  }

  lemma EmitInv(c: Conn, e: Event)
    requires Inv(c) && !e.StatusChanged?
    ensures Inv(Emit(c, e))
  {
    TrailQuiet(c.emitted, Emission(e, Listeners(c.events, Name(e))), c.status);
  }

  lemma SetStatusInv(c: Conn, val: Status)
    requires Inv(c)
    ensures Inv(SetStatus(c, val))
  {
    if val != c.status {
      TrailStep(c.emitted, c.status, val, Listeners(c.events, "status"));
    }
  }

  lemma ConnectInv(c: Conn, online: bool, built: bool)
    requires Inv(c)
    ensures Inv(Connect(c, online, built))
  {
    if Gate(c, online) {
      SetStatusInv(c, Connecting);
    }
  }

  lemma ShutdownInv(c: Conn)
    requires Inv(c)
    ensures Inv(Shutdown(c))
  {
    EmitInv(c.(offline := true), ShutdownRequested);
    SetStatusInv(Emit(c.(offline := true), ShutdownRequested), Disconnected);
  }

  lemma SendInv(codec: Codec, c: Conn, o: Msg)
    requires Inv(c)
    ensures Inv(Send(codec, c, o))
  {
  }

  lemma SignalInv(codec: Codec, c: Conn, request: Msg, answer: string)
    requires Inv(c)
    ensures Inv(Signal(codec, c, request, answer))
  {
    if request.kind == Some("rtc-offer") && c.id == request.to {
      var key := Key(request.fileID);
      var c1 := c.(sessions := c.sessions[key := c.rtcs], rtcs := c.rtcs + 1,
                   rtcCalls := c.rtcCalls + [RtcCall(c.rtcs, SetRemote(request.offer))]);
      assert Inv(c1);
      SendInv(codec, c1, Blank.(from := c.id, to := request.from, fileID := request.fileID,
                                kind := Some("rtc-answer"), answer := Some(answer)));
    }
  }

  lemma ReceiveInv(codec: Codec, c: Conn, data: string, answer: string)
    requires Inv(c)
    ensures Inv(Receive(codec, c, data, answer))
  {
    if c.prefs.Some? {
      match Decode(codec, c.prefs.value.password, data)
      case None =>
      case Some(request) =>
        var c1 := if Truthy(request.error) then Shutdown(SetError(c, request.error.value)) else c;
        if Truthy(request.error) {
          if request.error.value != c.error {
            EmitInv(c, ErrorRaised(request.error.value));
          }
          ShutdownInv(SetError(c, request.error.value));
        }
        SignalInv(codec, c1, request, answer);
        EmitInv(Signal(codec, c1, request, answer), MessageReceived(request));
    }
  }

  lemma StartTransferInv(codec: Codec, c: Conn, fileID: string, to: Option<string>, size: nat, offer: string)
    requires Inv(c)
    ensures Inv(StartTransfer(codec, c, fileID, to, size, offer))
  {
    if c.prefs.Some? {
      var c1 := c.(sessions := c.sessions[fileID := c.rtcs], rtcs := c.rtcs + 1);
      assert Inv(c1);
      SendInv(codec, c1, Blank.(from := c.id, to := to, fileID := Some(fileID), kind := Some("rtc-offer"),
                                offer := Some(offer), size := Some(size)));
    }
  }

  lemma LocalCandidateInv(codec: Codec, c: Conn, fileID: Option<string>, to: Option<string>, candidate: Option<string>)
    requires Inv(c)
    ensures Inv(LocalCandidate(codec, c, fileID, to, candidate))
  {
    if candidate.Some? {
      SendInv(codec, c, Blank.(from := c.id, to := to, fileID := fileID, kind := Some("rtc-candidate"),
                               candidate := candidate));
    }
  }

  lemma FireTimerInv(c: Conn, online: bool, built: bool)
    requires Inv(c)
    ensures Inv(FireTimer(c, online, built))
  {
    if c.timer.Some? {
      ConnectInv(c.(timer := None), online, built);
      ConnectInv(c.(timer := None, offline := false), online, built);
    }
  }

  lemma ApplyInv(codec: Codec, c: Conn, i: Input)
    requires Inv(c)
    ensures Inv(Apply(codec, c, i))
  {
    match i
    case CallOn(name, cb) =>
    case CallConfigure(ps) =>
    case CallConnect(online, built) => ConnectInv(c, online, built);
    case CallDisconnect => SetStatusInv(c, Disconnected);
    case CallSend(o) => SendInv(codec, c, o);
    case CallShutdown => ShutdownInv(c);
    case CallRestart => ShutdownInv(c);
    case TimerFired(online, built) => FireTimerInv(c, online, built);
    case SocketOpened => if c.wss.Some? { SetStatusInv(c, Connected); }
    case SocketClosed => if c.wss.Some? { SetStatusInv(c, Disconnected); }
    case FrameArrived(data, answer) => ReceiveInv(codec, c, data, answer);
    case CallBinary(fileID, to, size, offer) => StartTransferInv(codec, c, fileID, to, size, offer);
    case CandidateFound(fileID, to, candidate) => LocalCandidateInv(codec, c, fileID, to, candidate);
    case ChannelClosed(key, rtc) =>
    case ConnectionFailed(key, rtc) =>
    case TransferTimedOut(rtc) =>
  }

  lemma {:induction false} RunInv(codec: Codec, c: Conn, inputs: seq<Input>)
    requires Inv(c)
    ensures Inv(Run(codec, c, inputs))
    decreases |inputs|
  {
    if inputs != [] {
      ApplyInv(codec, c, inputs[0]);
      RunInv(codec, Apply(codec, c, inputs[0]), inputs[1..]);
    }
  }

  /** Every reachable state satisfies the invariant. */
  lemma ReachableInv(codec: Codec, id: Option<string>, inputs: seq<Input>)
    ensures Inv(Run(codec, Initial(id), inputs))
  {
    InitialInv(id);
    RunInv(codec, Initial(id), inputs);
  }

  // ---------------------------------------------------------------------------
  // Properties of single operations

  /**
   * `connect` opens a socket exactly when the gate holds and the host
   * accepts the URL; when the gate fails nothing changes.
   */
  lemma ConnectGate(c: Conn, online: bool, built: bool)
    ensures Connect(c, online, built).sockets == c.sockets + 1 <==> Gate(c, online) && built
    ensures !Gate(c, online) ==> Connect(c, online, built) == c
    ensures Gate(c, online) && built ==>
      var r := Connect(c, online, built);
      r.status == Connecting && r.timer == None && r.wss == Some(Socket(ServerUrl(c.prefs.value), c.sockets))
  {
  }

  /**
   * When the host rejects the URL the client is left CONNECTING with no
   * timer and no new socket, and neither `connect` nor a timer can open
   * one from there: the gate wants DISCONNECTED and no timer is pending.
   */
  lemma RejectedUrlStalls(c: Conn, online: bool, online2: bool, built2: bool)
    requires Gate(c, online)
    ensures var r := Connect(c, online, false);
      && r.status == Connecting && r.timer == None && r.wss == c.wss && r.sockets == c.sockets
      && Connect(r, online2, built2) == r
      && FireTimer(r, online2, built2) == r
  {
  }

  /**
   * With a fixed non-empty schedule the backoff index stays inside it: a
   * transition to DISCONNECTED waits `reconnect[k]` and moves the index to
   * `min(len - 1, k + 1)`, CONNECTED resets it, and anything else keeps both
   * the index and the pending timer.
   */
  lemma BackoffIndexInRange(c: Conn, val: Status)
    requires c.prefs.Some? && |c.prefs.value.reconnect| > 0
    requires 0 <= c.reconnect < |c.prefs.value.reconnect|
    ensures 0 <= SetStatus(c, val).reconnect < |c.prefs.value.reconnect|
    ensures val != c.status && val == Disconnected ==>
      && SetStatus(c, val).timer == Some(Timer(c.prefs.value.reconnect[c.reconnect], Reconnect))
      && SetStatus(c, val).reconnect == NextAttempt(c.prefs.value.reconnect, c.reconnect)
    ensures val != c.status && val == Connected ==> SetStatus(c, val).reconnect == 0
    ensures val == c.status || val == Connecting ==>
      SetStatus(c, val).reconnect == c.reconnect && SetStatus(c, val).timer == c.timer
  {
  }

  /**
   * The `status` setter emits one `status` event exactly when the value
   * changes; its old and new values are both the new status, because the
   * field is written before the event is built.
   */
  lemma StatusEmitsOnChange(c: Conn, val: Status)
    ensures SetStatus(c, val).status == val
    ensures |SetStatus(c, val).emitted| == |c.emitted| + (if val == c.status then 0 else 1)
    ensures val != c.status ==>
      SetStatus(c, val).emitted[|c.emitted|] == Emission(StatusChanged(val, val), Listeners(c.events, "status"))
  {
  }

  /**
   * The `error` setter emits one `error` event, reaching the listeners
   * registered at that moment, exactly when the value changes, and then
   * takes the value; an unchanged value changes nothing.
   */
  lemma ErrorEmitsOnChange(c: Conn, val: string)
    ensures val == c.error ==> SetError(c, val) == c
    ensures val != c.error ==>
      SetError(c, val) == c.(error := val, emitted := c.emitted + [Emission(ErrorRaised(val), Listeners(c.events, "error"))])
  {
  }

  /**
   * `configure` may replace the schedule by one no longer than the backoff
   * index. The next DISCONNECTED then reads past its end: the reconnect
   * timer gets an `undefined` timeout, which the host runs at once (0 ms),
   * and the index falls back to the schedule's last entry (-1 for an empty
   * schedule).
   */
  lemma ShrunkScheduleReconnectsAtOnce(c: Conn, ps: Patch)
    requires c.prefs.Some? && c.status != Disconnected
    requires ps.reconnect.Some? && |ps.reconnect.value| <= c.reconnect
    ensures var r := SetStatus(Configure(c, ps), Disconnected);
      && r.timer == Some(Timer(0, Reconnect))
      && r.reconnect == |ps.reconnect.value| - 1
  {
  }

  /**
   * `restart` leaves exactly the 1000 ms restart timer pending, whatever was
   * pending before, and the client switched off and DISCONNECTED.
   */
  lemma RestartLeavesOneTimer(c: Conn)
    ensures Restart(c).timer == Some(Timer(RestartDelay, Resume))
    ensures Restart(c).offline && Restart(c).status == Disconnected
  {
  }

  /**
   * When the restart timer fires, the client is switched back on and
   * `connect` runs: with prefs, an API key and the host online it leaves
   * CONNECTING, opening one socket when the URL is accepted; otherwise it
   * stays DISCONNECTED. Either way no timer is left pending.
   */
  lemma RestartResumes(c: Conn, online: bool, built: bool)
    ensures var r, ready := FireTimer(Restart(c), online, built), c.prefs.Some? && c.prefs.value.apiKey != "" && online;
      && !r.offline && r.timer == None
      && (ready ==> r.status == Connecting)
      && (!ready ==> r.status == Disconnected && r.sockets == c.sockets)
      && (r.sockets == c.sockets + 1 <==> ready && built)
      && (ready && built ==> r.wss == Some(Socket(ServerUrl(c.prefs.value), c.sockets)))
  {
    var s := Restart(c);
    assert s.status == Disconnected && s.sockets == c.sockets && s.prefs == c.prefs;
    assert FireTimer(s, online, built) == Connect(s.(timer := None, offline := false), online, built);
  }

  predicate KeepsOff(i: Input) {
    !i.CallRestart?
  }

  /** The properties of an off state that every input but `restart` keeps. */
  ghost predicate Off(c: Conn) {
    c.offline && (c.timer.None? || c.timer.value.action == Reconnect)
  }

  /** The signalling listener touches only the session cache, the RTC calls and the outbox. */
  lemma SignalFrame(codec: Codec, c: Conn, request: Msg, answer: string)
    ensures var r := Signal(codec, c, request, answer);
      r.offline == c.offline && r.timer == c.timer && r.sockets == c.sockets
  {
  }

  lemma ReceiveKeepsOff(codec: Codec, c: Conn, data: string, answer: string)
    requires Off(c)
    ensures Off(Receive(codec, c, data, answer)) && Receive(codec, c, data, answer).sockets == c.sockets
  {
    if c.prefs.Some? {
      match Decode(codec, c.prefs.value.password, data)
      case None =>
      case Some(request) =>
        var c1 := if Truthy(request.error) then Shutdown(SetError(c, request.error.value)) else c;
        assert Off(c1) && c1.sockets == c.sockets;
        SignalFrame(codec, c1, request, answer);
    }
  }

  /** One input that is not `restart` keeps the client off and opens no socket. */
  lemma ApplyKeepsOff(codec: Codec, c: Conn, i: Input)
    requires Off(c) && KeepsOff(i)
    ensures Off(Apply(codec, c, i)) && Apply(codec, c, i).sockets == c.sockets
  {
    match i
    case CallOn(name, cb) =>
    case CallConfigure(ps) =>
    case CallConnect(online, built) =>
    case CallDisconnect =>
    case CallSend(o) =>
    case CallShutdown =>
    case TimerFired(online, built) =>
    case SocketOpened =>
    case SocketClosed =>
    case FrameArrived(data, answer) => ReceiveKeepsOff(codec, c, data, answer);
    case CallBinary(fileID, to, size, offer) =>
    case CandidateFound(fileID, to, candidate) =>
    case ChannelClosed(key, rtc) =>
    case ConnectionFailed(key, rtc) =>
    case TransferTimedOut(rtc) =>
  }

  /**
   * Once switched off, and with no restart timer pending, no run free of
   * `restart` opens a socket or clears `offline`, including the reconnect
   * timers the backoff listener keeps scheduling.
   */
  lemma {:induction false} OfflineStaysOff(codec: Codec, c: Conn, inputs: seq<Input>)
    requires Off(c)
    requires forall k :: 0 <= k < |inputs| ==> KeepsOff(inputs[k])
    ensures Run(codec, c, inputs).offline
    ensures Run(codec, c, inputs).sockets == c.sockets
    decreases |inputs|
  {
    if inputs != [] {
      ApplyKeepsOff(codec, c, inputs[0]);
      OfflineStaysOff(codec, Apply(codec, c, inputs[0]), inputs[1..]);
    }
  }

  /** An answer or candidate for an unknown `fileID`, or not addressed here, changes nothing. */
  lemma SignalIgnoresUnknown(codec: Codec, c: Conn, request: Msg, answer: string)
    requires request.kind == Some("rtc-answer") || request.kind == Some("rtc-candidate")
    requires Key(request.fileID) !in c.sessions || c.id != request.to
    ensures Signal(codec, c, request, answer) == c
  {
  }

  /**
   * An answer or candidate for a known session addressed here is applied to
   * that session's RTC object, as `setRemoteDescription(answer)` or
   * `addIceCandidate(candidate)`, and nothing else changes.
   */
  lemma SignalAppliesKnown(codec: Codec, c: Conn, request: Msg, answer: string)
    requires request.kind == Some("rtc-answer") || request.kind == Some("rtc-candidate")
    requires Key(request.fileID) in c.sessions && c.id == request.to
    ensures var r, rtc := Signal(codec, c, request, answer), c.sessions[Key(request.fileID)];
      && r == c.(rtcCalls := r.rtcCalls)
      && (request.kind == Some("rtc-answer") ==>
            r.rtcCalls == c.rtcCalls + [RtcCall(rtc, SetRemote(request.answer))])
      && (request.kind == Some("rtc-candidate") ==>
            r.rtcCalls == c.rtcCalls + [RtcCall(rtc, AddCandidate(request.candidate))])
  {
  }

  /** An offer addressed here caches a fresh RTC object under its `fileID`. */
  lemma OfferCreatesSession(codec: Codec, c: Conn, request: Msg, answer: string)
    requires request.kind == Some("rtc-offer") && c.id == request.to
    ensures var r := Signal(codec, c, request, answer);
      r.sessions == c.sessions[Key(request.fileID) := c.rtcs] && r.rtcs == c.rtcs + 1
  {
  }

  /** Decoding a frame and answering it never removes a session entry. */
  lemma ReceiveKeepsSessions(codec: Codec, c: Conn, data: string, answer: string)
    ensures c.sessions.Keys <= Receive(codec, c, data, answer).sessions.Keys
  {
    if c.prefs.Some? {
      match Decode(codec, c.prefs.value.password, data)
      case None =>
      case Some(request) =>
        var c1 := if Truthy(request.error) then Shutdown(SetError(c, request.error.value)) else c;
        assert c1.sessions == c.sessions;
        assert c1.sessions.Keys <= Signal(codec, c1, request, answer).sessions.Keys;
    }
  }

  /**
   * Entries leave the session cache only through a channel's close event
   * or a failed connection: the timeout and every other input keep every
   * entry. A completed transfer removes its entry only through the close
   * event its completion triggers.
   */
  lemma OnlyCloseOrFailureDropsSessions(codec: Codec, c: Conn, i: Input)
    requires !i.ChannelClosed? && !i.ConnectionFailed?
    ensures c.sessions.Keys <= Apply(codec, c, i).sessions.Keys
  {
    match i
    case CallOn(name, cb) =>
    case CallConfigure(ps) =>
    case CallConnect(online, built) =>
    case CallDisconnect =>
    case CallSend(o) =>
    case CallShutdown =>
    case CallRestart =>
    case TimerFired(online, built) =>
    case SocketOpened =>
    case SocketClosed =>
    case FrameArrived(data, answer) => ReceiveKeepsSessions(codec, c, data, answer);
    case CallBinary(fileID, to, size, offer) =>
    case CandidateFound(fileID, to, candidate) =>
    case TransferTimedOut(rtc) =>
  }

  /**
   * An inbound frame with an `error` sets the error and shuts down, and the
   * message is still emitted; a frame that fails to decode changes nothing.
   */
  lemma ReceiveOutcomes(codec: Codec, c: Conn, data: string, answer: string)
    requires c.prefs.Some?
    ensures Decode(codec, c.prefs.value.password, data).None? ==> Receive(codec, c, data, answer) == c
    ensures var d := Decode(codec, c.prefs.value.password, data);
      d.Some? && Truthy(d.value.error) ==>
        var r := Receive(codec, c, data, answer);
        r.offline && r.error == d.value.error.value && r.status == Disconnected &&
        r.emitted[|r.emitted| - 1].event == MessageReceived(d.value)
  {
  }
}
