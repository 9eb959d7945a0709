/**
 * The token-based relay client of peer.js as a state machine: one record for
 * the singleton's fields and one function per operation or callback. The
 * class in TokenPeer is proved to follow these functions; the lemmas here
 * state what the operations promise.
 */
module TokenMachine {
  import opened Wrappers
  import opened Relay

  /** `peer.prefs`. */
  datatype Prefs = Prefs(token: string, channel: int, server: string, reconnect: seq<int>)

  const DefaultPrefs: Prefs :=
    Prefs("", 1, "wss://connect.websocket.in/v2/", [1000, 2000, 5000, 10000, 40000])

  /** The placeholder in the server template that `socket()` replaces by the token. */
  const Placeholder: string := "[token]"

  /** The delay of the timer `restart()` schedules. */
  const RestartDelay: int := 1000

  /** What the callback waiting in `peer.timer` does when it fires. */
  datatype TimerAction =
    | Reconnect  // the backoff listener: `connect(...)`
    | Resume     // `restart()`: `offline = false`, then `connect('restart')`

  /** The single pending timer: its delay and its callback. */
  datatype Timer = Timer(delay: int, action: TimerAction)

  /** `peer.wss`: the URL it was opened with and its creation number. */
  datatype Socket = Socket(url: string, serial: nat)

  /** The fields of the `peer` singleton, plus the frames handed to `wss.send`. */
  datatype Conn = Conn(
    status: Status, error: string, timer: Option<Timer>, offline: bool, reconnect: int,
    events: map<string, seq<Callback>>, emitted: seq<Emission>,
    prefs: Prefs, wss: Option<Socket>, sockets: nat, outbox: seq<string>)

  /** The new state of an operation that can throw, and whether it returned normally. */
  datatype Step = Step(conn: Conn, ok: bool)

  function Initial(): Conn {
    Conn(Disconnected, "", None, false, 0, map[], [], DefaultPrefs, None, 0, [])
  }

  /** `emit(name, ...)`. */
  function Emit(c: Conn, e: Event): Conn {
    c.(emitted := c.emitted + [Emission(e, Listeners(c.events, Name(e)))])
  }

  /** `on(name, callback)`. */
  function On(c: Conn, name: string, cb: Callback): Conn {
    c.(events := Register(c.events, name, cb))
  }

  /**
   * The `status` setter together with the two listeners peer.js registers
   * first: CONNECTED resets the backoff index; DISCONNECTED replaces the
   * pending timer by a reconnect after `reconnect[k]` and advances `k`.
   * `_status` is assigned before the payload is built, so `oldValue` reads
   * the new value.
   */
  function SetStatus(c: Conn, val: Status): Conn {
    if val == c.status then c
    else
      var c1 := Emit(c.(status := val), StatusChanged(val, val));
      if val == Connected then c1.(reconnect := 0)
      else if val == Disconnected then
        c1.(timer := Some(Timer(Delay(c.prefs.reconnect, c.reconnect), Reconnect)),
            reconnect := NextAttempt(c.prefs.reconnect, c.reconnect))
      else c1
  }

  /** The `error` setter: emits before assigning, and only on change. */
  function SetError(c: Conn, val: string): Conn {
    if val == c.error then c else Emit(c, ErrorRaised(val)).(error := val)
  }

  /** The server URL: the first `[token]` of the template replaced by the token. */
  function ServerUrl(p: Prefs): string {
    ReplaceFirst(p.server, Placeholder, p.token)
  }

  /**
   * `socket()`: CONNECTING, cancel the pending timer, open a new socket.
   * `built` says whether the host's `WebSocket` constructor accepts the
   * URL; when it throws (a malformed server template), the status and the
   * timer are already changed, `wss` keeps its previous value and the
   * exception reaches the caller.
   */
  function OpenSocket(c: Conn, built: bool): Step {
    var c1 := SetStatus(c, Connecting).(timer := None);
    if built then Step(c1.(wss := Some(Socket(ServerUrl(c1.prefs), c1.sockets)), sockets := c1.sockets + 1), true)
    else Step(c1, false)
  }

  /** `connect(reason)`; `online` is `navigator.onLine`, `built` as for `OpenSocket`. */
  function Connect(c: Conn, online: bool, built: bool): Step {
    if Validate(c.prefs.token, c.offline, online, c.status) then OpenSocket(c, built) else Step(c, true)
  }

  /** `disconnect()`: `wss.close()` throws when no socket was ever opened, before the status is set. */
  function Disconnect(c: Conn): Step {
    if c.wss.None? then Step(c, false) else Step(SetStatus(c, Disconnected), true)
  }

  /** `send(o)` with `frame == JSON.stringify(o)`: a missing socket is caught and logged. */
  function Send(c: Conn, frame: string): Conn {
    if c.wss.None? then c else c.(outbox := c.outbox + [frame])
  }

  /** `shutdown()`: offline, emit `shutdown`, disconnect (whose exception propagates). */
  function Shutdown(c: Conn): Step {
    Disconnect(Emit(c.(offline := true), ShutdownRequested))
  }

  /** `restart()`: shutdown, then replace the pending timer by the restart timer. */
  function Restart(c: Conn): Step {
    var s := Shutdown(c);
    if !s.ok then s else Step(s.conn.(timer := Some(Timer(RestartDelay, Resume))), true)
  }

  /**
   * The pending timer fires (the host only fires a pending one; with none
   * nothing happens). An exception from `connect` ends the callback.
   */
  function FireTimer(c: Conn, online: bool, built: bool): Conn {
    match c.timer
    case None => c
    case Some(t) =>
      if t.action == Reconnect then Connect(c.(timer := None), online, built).conn
      else Connect(c.(timer := None, offline := false), online, built).conn
  }

  /**
   * `wss.onmessage` with `parsed == JSON.parse(e.data)` (`None` when it throws).
   * An `error` key sets the error and shuts down; the message is emitted
   * afterwards unless the shutdown threw, which the handler's catch swallows.
   */
  function Receive(c: Conn, parsed: Option<Msg>): Conn {
    match parsed
    case None => c
    case Some(request) =>
      if Truthy(request.error) then
        var s := Shutdown(SetError(c, request.error.value));
        if s.ok then Emit(s.conn, MessageReceived(request)) else s.conn
      else Emit(c, MessageReceived(request))
  }

  /**
   * Everything that can happen to the client: calls from outside, the
   * page's writes of its fields, and host callbacks.
   */
  datatype Input =
    | CallOn(name: string, cb: Callback)
    | CallConnect(online: bool, built: bool)   // also the window `online` event
    | CallDisconnect              // also the window `offline` event
    | CallSend(frame: string)
    | CallShutdown
    | CallRestart
    | TimerFired(online: bool, built: bool)
    | CallSetToken(token: string)   // the page writes `peer.prefs.token`
    | CallSetServer(server: string) // the page writes `peer.prefs.server`
    | CallSetOffline(off: bool)     // the page writes `peer.offline`
    | SocketOpened
    | SocketClosed
    | FrameArrived(parsed: Option<Msg>)

  /** One input; socket callbacks only ever come from an existing socket. */
  function Apply(c: Conn, i: Input): Conn {
    match i
    case CallOn(name, cb) => On(c, name, cb)
    case CallConnect(online, built) => Connect(c, online, built).conn
    case CallDisconnect => Disconnect(c).conn
    case CallSend(frame) => Send(c, frame)
    case CallShutdown => Shutdown(c).conn
    case CallRestart => Restart(c).conn
    case TimerFired(online, built) => FireTimer(c, online, built)
    case CallSetToken(token) => c.(prefs := c.prefs.(token := token))
    case CallSetServer(server) => c.(prefs := c.prefs.(server := server))
    case CallSetOffline(off) => c.(offline := off)
    case SocketOpened => if c.wss.Some? then SetStatus(c, Connected) else c
    case SocketClosed => if c.wss.Some? then SetStatus(c, Disconnected) else c
    case FrameArrived(parsed) => Receive(c, parsed)
  }

  function Run(c: Conn, inputs: seq<Input>): Conn
    decreases |inputs|
  {
    if inputs == [] then c else Run(Apply(c, inputs[0]), inputs[1..])
  }

  /**
   * What every reachable state satisfies: the backoff index is inside the
   * schedule, a socket exists exactly when one was opened, and the emitted
   * statuses, read after the initial DISCONNECTED, never repeat a value and
   * end at the current status.
   */
  ghost predicate Inv(c: Conn) {
    && |c.prefs.reconnect| > 0 && 0 <= c.reconnect < |c.prefs.reconnect|
    && (c.wss.Some? <==> c.sockets > 0)
    && TrailEndsAt(c.emitted, c.status)
  }

  lemma InitialInv()
    ensures Inv(Initial())
  {
  }

  /** A non-status emission keeps the invariant. */
  lemma EmitInv(c: Conn, e: Event)
    requires Inv(c) && !e.StatusChanged?
    ensures Inv(Emit(c, e))
  {
    TrailQuiet(c.emitted, Emission(e, Listeners(c.events, Name(e))), c.status);
  }

  /** The status setter keeps the invariant: it emits exactly when the value changes. */
  lemma SetStatusInv(c: Conn, val: Status)
    requires Inv(c)
    ensures Inv(SetStatus(c, val))
  {
    if val != c.status {
      var e := Emission(StatusChanged(val, val), Listeners(c.events, "status"));
      TrailStep(c.emitted, c.status, val, e.callbacks);
      var c1 := Emit(c.(status := val), StatusChanged(val, val));
      assert c1.emitted == c.emitted + [e];
      assert Inv(c1);
    }
  }

  lemma ConnectInv(c: Conn, online: bool, built: bool)
    requires Inv(c)
    ensures Inv(Connect(c, online, built).conn)
  {
    SetStatusInv(c, Connecting);
  }

  lemma ShutdownInv(c: Conn)
    requires Inv(c)
    ensures Inv(Shutdown(c).conn)
  {
    var c1 := Emit(c.(offline := true), ShutdownRequested);
    EmitInv(c.(offline := true), ShutdownRequested);
    SetStatusInv(c1, Disconnected);
  }

  lemma ReceiveInv(c: Conn, parsed: Option<Msg>)
    requires Inv(c)
    ensures Inv(Receive(c, parsed))
  {
    if parsed.Some? {
      var request := parsed.value;
      if Truthy(request.error) {
        var c1 := SetError(c, request.error.value);
        if request.error.value != c.error {
          EmitInv(c, ErrorRaised(request.error.value));
        }
        ShutdownInv(c1);
        EmitInv(Shutdown(c1).conn, MessageReceived(request));
      } else {
        EmitInv(c, MessageReceived(request));
      }
    }
  }

  lemma RestartInv(c: Conn)
    requires Inv(c)
    ensures Inv(Restart(c).conn)
  {
    ShutdownInv(c);
  }

  lemma FireTimerInv(c: Conn, online: bool, built: bool)
    requires Inv(c)
    ensures Inv(FireTimer(c, online, built))
  {
    if c.timer.Some? {
      if c.timer.value.action == Reconnect {
        ConnectInv(c.(timer := None), online, built);
      } else {
        ConnectInv(c.(timer := None, offline := false), online, built);
      }
    }
  }

  /** Every input keeps the invariant. */
  lemma ApplyInv(c: Conn, i: Input)
    requires Inv(c)
    ensures Inv(Apply(c, i))
  {
    match i
    case CallOn(name, cb) =>
    case CallConnect(online, built) => ConnectInv(c, online, built);
    case CallDisconnect => SetStatusInv(c, Disconnected);
    case CallSend(frame) =>
    case CallShutdown => ShutdownInv(c);
    case CallRestart => RestartInv(c);
    case TimerFired(online, built) => FireTimerInv(c, online, built);
    case CallSetToken(token) =>
    case CallSetServer(server) =>
    case CallSetOffline(off) =>
    case SocketOpened => SetStatusInv(c, Connected);
    case SocketClosed => SetStatusInv(c, Disconnected);
    case FrameArrived(parsed) => ReceiveInv(c, parsed);
  }

  /** Every run from a state satisfying the invariant ends in one. */
  lemma {:induction false} RunInv(c: Conn, inputs: seq<Input>)
    requires Inv(c)
    ensures Inv(Run(c, inputs))
    decreases |inputs|
  {
    if inputs != [] {
      ApplyInv(c, inputs[0]);
      RunInv(Apply(c, inputs[0]), inputs[1..]);
    }
  }

  /** Every reachable state satisfies the invariant. */
  lemma ReachableInv(inputs: seq<Input>)
    ensures Inv(Run(Initial(), inputs))
  {
    InitialInv();
    RunInv(Initial(), inputs);
  }

  lemma RunStep(c: Conn, i: Input, rest: seq<Input>)
    ensures Run(c, [i] + rest) == Run(Apply(c, i), rest)
  {
    assert ([i] + rest)[0] == i && ([i] + rest)[1..] == rest;
  }

  /** Once the page has written a token, a `connect` while online reaches a socket. */
  lemma SocketReachable(token: string)
    requires token != ""
    ensures var r := Run(Initial(), [CallSetToken(token), CallConnect(true, true)]);
      r.sockets == 1 && r.wss.Some? && r.status == Connecting
  {
    var c1 := Apply(Initial(), CallSetToken(token));
    RunStep(Initial(), CallSetToken(token), [CallConnect(true, true)]);
    RunStep(c1, CallConnect(true, true), []);
  }

  /**
   * `connect` opens a socket exactly when the gate holds and the host
   * accepts the URL; then the status is CONNECTING, no timer is pending and
   * the socket uses the server URL. When the gate fails nothing changes.
   */
  lemma ConnectGate(c: Conn, online: bool, built: bool)
    ensures var r := Connect(c, online, built);
      r.conn.sockets == c.sockets + 1 <==> Validate(c.prefs.token, c.offline, online, c.status) && built
    ensures !Validate(c.prefs.token, c.offline, online, c.status) ==> Connect(c, online, built) == Step(c, true)
    ensures Validate(c.prefs.token, c.offline, online, c.status) && built ==>
      var r := Connect(c, online, built);
      r.ok && r.conn.status == Connecting && r.conn.timer == None &&
      r.conn.wss == Some(Socket(ServerUrl(c.prefs), c.sockets))
  {
  }

  /**
   * When the host rejects the URL, `connect` throws with the status already
   * CONNECTING, no timer pending and no new socket; from there no `connect`
   * and no timer can open one, since the gate wants DISCONNECTED and no
   * timer is left to fire.
   */
  lemma RejectedUrlStalls(c: Conn, online: bool, online2: bool, built2: bool)
    requires Validate(c.prefs.token, c.offline, online, c.status)
    ensures var r := Connect(c, online, false);
      && !r.ok && r.conn.status == Connecting && r.conn.timer == None
      && r.conn.wss == c.wss && r.conn.sockets == c.sockets
      && Connect(r.conn, online2, built2) == Step(r.conn, true)
      && FireTimer(r.conn, online2, built2) == r.conn
  {
  }

  /** `disconnect` returns normally exactly when a socket exists, and then leaves DISCONNECTED. */
  lemma DisconnectThrowsWithoutSocket(c: Conn)
    ensures Disconnect(c).ok <==> c.wss.Some?
    ensures !Disconnect(c).ok ==> Disconnect(c).conn == c
    ensures Disconnect(c).ok ==> Disconnect(c).conn.status == Disconnected
  {
  }

  /** A status assignment emits one event exactly when the value changes, and its `oldValue` is the new value. */
  lemma StatusEmitsOnChange(c: Conn, val: Status)
    ensures SetStatus(c, val).status == val
    ensures |SetStatus(c, val).emitted| == |c.emitted| + (if val == c.status then 0 else 1)
    ensures val != c.status ==>
      SetStatus(c, val).emitted[|c.emitted|].event == StatusChanged(val, val)
  {
  }

  /**
   * The `error` setter emits one `error` event, reaching the listeners
   * registered at that moment, exactly when the value changes, and then
   * takes the value; an unchanged value changes nothing.
   */
  lemma ErrorEmitsOnChange(c: Conn, val: string)
    ensures val == c.error ==> SetError(c, val) == c
    ensures val != c.error ==>
      SetError(c, val) == c.(error := val, emitted := c.emitted + [Emission(ErrorRaised(val), Listeners(c.events, "error"))])
  {
  }

  /** `shutdown` switches the client off and emits `shutdown` before disconnecting. */
  lemma ShutdownSwitchesOff(c: Conn)
    ensures Shutdown(c).conn.offline
    ensures |Shutdown(c).conn.emitted| > |c.emitted|
    ensures Shutdown(c).conn.emitted[|c.emitted|].event == ShutdownRequested
    ensures Shutdown(c).ok ==> Shutdown(c).conn.status == Disconnected
  {
  }

  /**
   * After a `restart` that returned normally the one pending timer is the
   * 1000 ms restart timer; when it fires with the host online and a token
   * set, the client is back on and opens a socket.
   */
  lemma RestartResumes(c: Conn)
    requires Restart(c).ok
    ensures Restart(c).conn.timer == Some(Timer(RestartDelay, Resume))
    ensures Restart(c).conn.offline && Restart(c).conn.status == Disconnected
    ensures c.prefs.token != "" ==>
      var r := FireTimer(Restart(c).conn, true, true);
      !r.offline && r.status == Connecting && r.sockets == c.sockets + 1 && r.timer == None
  {
  }

  /**
   * The reset and reconnect listeners: with a non-empty schedule the index
   * stays inside it; DISCONNECTED schedules a reconnect after `reconnect[k]`
   * and advances the index as `Math.min(len - 1, k + 1)`; CONNECTED resets
   * it; CONNECTING and an unchanged status leave the index and the timer.
   */
  lemma BackoffStep(c: Conn, val: Status)
    requires |c.prefs.reconnect| > 0 && 0 <= c.reconnect < |c.prefs.reconnect|
    ensures 0 <= SetStatus(c, val).reconnect < |c.prefs.reconnect|
    ensures val != c.status && val == Disconnected ==>
      && SetStatus(c, val).timer == Some(Timer(c.prefs.reconnect[c.reconnect], Reconnect))
      && SetStatus(c, val).reconnect == NextAttempt(c.prefs.reconnect, c.reconnect)
    ensures val != c.status && val == Connected ==> SetStatus(c, val).reconnect == 0
    ensures val == c.status || val == Connecting ==>
      SetStatus(c, val).reconnect == c.reconnect && SetStatus(c, val).timer == c.timer
  {
  }

  /**
   * The listeners follow `AttemptAfter`: after `n` disconnections in a row
   * the next one waits `reconnect[min(n, len - 1)]` and counts as the
   * (n+1)-th; CONNECTED starts the count again; CONNECTING keeps it.
   */
  lemma BackoffFollowsAttempts(c: Conn, n: nat)
    requires |c.prefs.reconnect| > 0 && c.reconnect == AttemptAfter(c.prefs.reconnect, n)
    ensures var s := c.prefs.reconnect;
      c.status != Disconnected ==>
        && SetStatus(c, Disconnected).timer == Some(Timer(s[Min(n, |s| - 1)], Reconnect))
        && SetStatus(c, Disconnected).reconnect == AttemptAfter(s, n + 1)
    ensures c.status != Connected ==> SetStatus(c, Connected).reconnect == AttemptAfter(c.prefs.reconnect, 0)
    ensures SetStatus(c, Connecting).reconnect == c.reconnect
  {
    BackoffDelay(c.prefs.reconnect, n);
  }

  /** `n` reconnection attempts, each opening a socket that closes before it opens. */
  function Retries(n: nat): seq<Input> {
    if n == 0 then [] else [TimerFired(true, true), SocketClosed] + Retries(n - 1)
  }

  /** One attempt: the reconnect timer fires online, and the socket it opens closes. */
  function Attempt(c: Conn): Conn {
    var fired := FireTimer(c, true, true);
    if fired.wss.Some? then SetStatus(fired, Disconnected) else fired
  }

  /** `Attempt` taken `n` times. */
  function Attempts(c: Conn, n: nat): Conn
    decreases n
  {
    if n == 0 then c else Attempts(Attempt(c), n - 1)
  }

  /** Replaying `Retries(n)` is taking `Attempt` `n` times. */
  lemma {:induction false} RunRetries(c: Conn, n: nat)
    ensures Run(c, Retries(n)) == Attempts(c, n)
    decreases n
  {
    if n > 0 {
      var c1 := Apply(c, TimerFired(true, true));
      var rest := Retries(n - 1);
      assert Retries(n) == [TimerFired(true, true)] + ([SocketClosed] + rest);
      RunStep(c, TimerFired(true, true), [SocketClosed] + rest);
      RunStep(c1, SocketClosed, rest);
      RunRetries(Attempt(c), n - 1);
    }
  }

  /**
   * Waiting to retry `m` disconnections into the backoff: DISCONNECTED with
   * the reconnect timer pending, a token set and the client on.
   */
  ghost predicate Retrying(c: Conn, m: nat) {
    && c.status == Disconnected && c.timer.Some? && c.timer.value.action == Reconnect
    && c.prefs.token != "" && !c.offline
    && |c.prefs.reconnect| > 0 && c.reconnect == AttemptAfter(c.prefs.reconnect, m)
  }

  /** One failed attempt opens one socket and moves one step along the backoff. */
  lemma RetryStep(c: Conn, m: nat)
    requires Retrying(c, m)
    ensures var r, s := Attempt(c), c.prefs.reconnect;
      && Retrying(r, m + 1) && r.prefs == c.prefs && r.sockets == c.sockets + 1
      && r.timer.value.delay == s[Min(m, |s| - 1)]
  {
    var c1 := Apply(c, TimerFired(true, true));
    assert c1.status == Connecting && c1.wss.Some? && c1.reconnect == c.reconnect && c1.sockets == c.sockets + 1;
    BackoffFollowsAttempts(c1, m);
  }

  /** `FailedAttempts` over `Attempts`. */
  lemma {:induction false} AttemptsBackOff(c: Conn, m: nat, n: nat)
    requires Retrying(c, m)
    ensures var r, s := Attempts(c, n), c.prefs.reconnect;
      && Retrying(r, m + n) && r.prefs == c.prefs && r.sockets == c.sockets + n
      && (n > 0 ==> r.timer.value.delay == s[Min(m + n - 1, |s| - 1)])
    decreases n
  {
    if n > 0 {
      RetryStep(c, m);
      AttemptsBackOff(Attempt(c), m + 1, n - 1);
    }
  }

  /**
   * After `n` failed reconnection attempts in a row, starting `m`
   * disconnections into the backoff, each attempt has opened one socket,
   * the index is `AttemptAfter(m + n)`, and the pending reconnect waits
   * `reconnect[min(m + n - 1, len - 1)]`.
   */
  lemma FailedAttempts(c: Conn, m: nat, n: nat)
    requires Retrying(c, m)
    ensures var r, s := Run(c, Retries(n)), c.prefs.reconnect;
      && Retrying(r, m + n) && r.prefs == c.prefs && r.sockets == c.sockets + n
      && (n > 0 ==> r.timer.value.delay == s[Min(m + n - 1, |s| - 1)])
  {
    RunRetries(c, n);
    AttemptsBackOff(c, m, n);
  }

  /** An input that can neither clear `offline` nor schedule the restart timer. */
  predicate KeepsOff(i: Input) {
    !i.CallRestart? && !(i.CallSetOffline? && !i.off)
  }

  /** One step of `OfflineStaysOff`. */
  lemma ApplyKeepsOff(c: Conn, i: Input)
    requires c.offline
    requires c.timer.None? || c.timer.value.action == Reconnect
    requires KeepsOff(i)
    ensures Apply(c, i).offline && Apply(c, i).sockets == c.sockets
    ensures Apply(c, i).timer.None? || Apply(c, i).timer.value.action == Reconnect
  {
    match i
    case CallOn(name, cb) =>
    case CallConnect(online, built) =>
    case CallDisconnect =>
    case CallSend(frame) =>
    case CallShutdown =>
    case TimerFired(online, built) =>
    case CallSetToken(token) =>
    case CallSetServer(server) =>
    case CallSetOffline(off) =>
    case SocketOpened =>
    case SocketClosed =>
    case FrameArrived(parsed) =>
  }

  /**
   * Once switched off, and with no restart timer pending, no run free of
   * `restart` and of the page writing `offline = false` opens a socket or
   * clears `offline` — including the reconnect timers the backoff listener
   * keeps scheduling.
   */
  lemma {:induction false} OfflineStaysOff(c: Conn, inputs: seq<Input>)
    requires c.offline
    requires c.timer.None? || c.timer.value.action == Reconnect
    requires forall k :: 0 <= k < |inputs| ==> KeepsOff(inputs[k])
    ensures Run(c, inputs).offline
    ensures Run(c, inputs).sockets == c.sockets
    ensures Run(c, inputs).timer.None? || Run(c, inputs).timer.value.action == Reconnect
    decreases |inputs|
  {
    if inputs != [] {
      ApplyKeepsOff(c, inputs[0]);
      OfflineStaysOff(Apply(c, inputs[0]), inputs[1..]);
    }
  }

  /**
   * A frame whose JSON cannot be parsed changes nothing; one with an
   * `error` sets the error and switches the client off; any other is
   * emitted as a message and changes nothing else.
   */
  lemma ReceiveOutcomes(c: Conn, parsed: Option<Msg>)
    ensures parsed.None? ==> Receive(c, parsed) == c
    ensures parsed.Some? && Truthy(parsed.value.error) ==>
      Receive(c, parsed).error == parsed.value.error.value && Receive(c, parsed).offline
    ensures parsed.Some? && !Truthy(parsed.value.error) ==>
      Receive(c, parsed) == Emit(c, MessageReceived(parsed.value))
    ensures parsed.Some? && c.wss.Some? ==>
      var r := Receive(c, parsed);
      r.emitted[|r.emitted| - 1].event == MessageReceived(parsed.value)
  {
  }
}
