/**
 * The `peer` singleton of peer.js as an object whose methods update its
 * fields in place. Each method is proved to move the object exactly as the
 * matching function of TokenMachine moves its state record.
 */
module TokenPeer {
  import opened Wrappers
  import opened Relay
  import M = TokenMachine

  /** `JSON.parse` (`None` when it throws) and `JSON.stringify`, supplied by the host. */
  datatype Json = Json(parse: string -> Option<Msg>, stringify: Msg -> string)

  class Peer {
    const json: Json
    var status: Status
    var error: string
    var timer: Option<M.Timer>
    var offline: bool
    var reconnect: int
    var events: map<string, seq<Callback>>
    var emitted: seq<Emission>
    var prefs: M.Prefs
    var wss: Option<M.Socket>
    var sockets: nat
    var outbox: seq<string>

    /** The object's fields as a TokenMachine state. */
    function State(): M.Conn
      reads this
    {
      M.Conn(status, error, timer, offline, reconnect, events, emitted, prefs, wss, sockets, outbox)
    }

    constructor (json: Json)
      ensures this.json == json && State() == M.Initial()
    {
      this.json := json;
      status, error, timer, offline, reconnect := Disconnected, "", None, false, 0;
      events, emitted := map[], [];
      prefs, wss, sockets, outbox := M.DefaultPrefs, None, 0, [];
    }

    method Emit(e: Event)
      modifies this
      ensures State() == M.Emit(old(State()), e)
    {
      emitted := emitted + [Emission(e, Listeners(events, Name(e)))];
    }

    method On(name: string, cb: Callback)
      modifies this
      ensures State() == M.On(old(State()), name, cb)
    {
      events := Register(events, name, cb);
    }

    /** The `status` setter, with the reset and reconnect listeners peer.js registers. */
    method SetStatus(val: Status)
      modifies this
      ensures State() == M.SetStatus(old(State()), val)
    {
      if val != status {
        status := val;
        Emit(StatusChanged(val, status));
        if val == Connected {
          reconnect := 0;
        }
        if val == Disconnected {
          var timeout := Delay(prefs.reconnect, reconnect);
          timer := Some(M.Timer(timeout, M.Reconnect));
          reconnect := Min(|prefs.reconnect| - 1, reconnect + 1);
        }
      }
    }

    method SetError(val: string)
      modifies this
      ensures State() == M.SetError(old(State()), val)
    {
      if val != error {
        Emit(ErrorRaised(val));
        error := val;
      }
    }

    /** `built` is false when the host's `WebSocket` constructor throws; `ok` is false then. */
    method Socket(built: bool) returns (ok: bool)
      modifies this
      ensures M.Step(State(), ok) == M.OpenSocket(old(State()), built)
    {
      SetStatus(Connecting);
      timer := None;
      if !built {
        return false;
      }
      wss := Some(M.Socket(ReplaceFirst(prefs.server, M.Placeholder, prefs.token), sockets));
      sockets := sockets + 1;
      ok := true;
    }

    method Connect(online: bool, built: bool) returns (ok: bool)
      modifies this
      ensures M.Step(State(), ok) == M.Connect(old(State()), online, built)
    {
      ok := true;
      if prefs.token != "" && offline == false && online && status == Disconnected {
        ok := Socket(built);
      }
    }

    /** `ok` is false when `wss.close()` threw. */
    method Disconnect() returns (ok: bool)
      modifies this
      ensures M.Step(State(), ok) == M.Disconnect(old(State()))
    {
      if wss.None? {
        return false;
      }
      SetStatus(Disconnected);
      ok := true;
    }

    method Send(o: Msg)
      modifies this
      ensures State() == M.Send(old(State()), json.stringify(o))
    {
      if wss.Some? {
        outbox := outbox + [json.stringify(o)];
      }
    }

    method Shutdown() returns (ok: bool)
      modifies this
      ensures M.Step(State(), ok) == M.Shutdown(old(State()))
    {
      offline := true;
      Emit(ShutdownRequested);
      ok := Disconnect();
    }

    method Restart() returns (ok: bool)
      modifies this
      ensures M.Step(State(), ok) == M.Restart(old(State()))
    {
      ok := Shutdown();
      if !ok {
        return;
      }
      timer := Some(M.Timer(M.RestartDelay, M.Resume));
    }

    /** The pending timer's callback runs; `online` is `navigator.onLine` at that moment. */
    method FireTimer(online: bool, built: bool)
      modifies this
      ensures State() == M.FireTimer(old(State()), online, built)
    {
      match timer
      case None =>
      case Some(t) =>
        timer := None;
        if t.action == M.Resume {
          offline := false;
        }
        var _ := Connect(online, built);
    }

    /** `wss.onopen`. */
    method OnOpen()
      modifies this
      ensures State() == M.SetStatus(old(State()), Connected)
    {
      SetStatus(Connected);
    }

    /** `wss.onclose`. */
    method OnClose()
      modifies this
      ensures State() == M.SetStatus(old(State()), Disconnected)
    {
      SetStatus(Disconnected);
    }

    /** `wss.onmessage` with the frame's text. */
    method OnMessage(data: string)
      modifies this
      ensures State() == M.Receive(old(State()), json.parse(data))
    {
      var parsed := json.parse(data);
      if parsed.None? {
        return;
      }
      var request := parsed.value;
      if Truthy(request.error) {
        SetError(request.error.value);
        var ok := Shutdown();
        if !ok {
          return;
        }
      }
      Emit(MessageReceived(request));
    }
  }
}
