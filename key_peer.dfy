/**
 * The `peer` singleton of peer/peer.js as an object whose methods update
 * its fields in place. Each method is proved to move the object exactly as
 * the matching function of KeyMachine moves its state record; `Binary`
 * also hands back the sender of Transfer that carries the file.
 */
module KeyPeer {
  import opened Wrappers
  import opened Relay
  import M = KeyMachine
  import Transfer

  class Peer {
    const codec: M.Codec
    var status: Status
    var error: string
    var timer: Option<M.Timer>
    var offline: bool
    var reconnect: int
    var events: map<string, seq<Callback>>
    var emitted: seq<Emission>
    var prefs: Option<M.Prefs>
    var id: Option<string>
    var wss: Option<M.Socket>
    var sockets: nat
    var outbox: seq<string>
    var sessions: map<string, nat>   // `peer.binary.cache`: fileID to RTC object
    var rtcs: nat
    var rtcCalls: seq<M.RtcCall>

    /** The object's fields as a KeyMachine state. */
    function State(): M.Conn
      reads this
    {
      M.Conn(status, error, timer, offline, reconnect, events, emitted, prefs, id, wss, sockets,
             outbox, sessions, rtcs, rtcCalls)
    }

    constructor (codec: M.Codec, id: Option<string>)
      ensures this.codec == codec && State() == M.Initial(id)
    {
      this.codec := codec;
      this.id := id;
      status, error, timer, offline, reconnect := Disconnected, "", None, false, 0;
      events, emitted, prefs := map[], [], None;
      wss, sockets, outbox := None, 0, [];
      sessions, rtcs, rtcCalls := map[], 0, [];
    }

    method Emit(e: Event)
      modifies this
      ensures State() == M.Emit(old(State()), e)
    {
      emitted := emitted + [Emission(e, Listeners(events, Name(e)))];
    }

    method On(name: string, cb: Callback)
      modifies this
      ensures State() == M.On(old(State()), name, cb)
    {
      events := Register(events, name, cb);
    }

    /** `configure(ps)`; installing the password in the cipher is not modelled. */
    method Configure(ps: M.Patch)
      modifies this
      ensures State() == M.Configure(old(State()), ps)
    {
      var base := if prefs.Some? then prefs.value else M.DefaultPrefs;
      prefs := Some(M.Merge(base, ps));
    }

    /** The `status` setter, with the reset and reconnect listeners of lines 141-156. */
    method SetStatus(val: Status)
      modifies this
      ensures State() == M.SetStatus(old(State()), val)
    {
      if val != status {
        var schedule := if prefs.Some? then prefs.value.reconnect else [];
        status := val;
        Emit(StatusChanged(val, status));
        if val == Connected {
          reconnect := 0;
        }
        if val == Disconnected {
          var timeout := Delay(schedule, reconnect);
          timer := Some(M.Timer(timeout, M.Reconnect));
          reconnect := Min(|schedule| - 1, reconnect + 1);
        }
      }
    }

    method SetError(val: string)
      modifies this
      ensures State() == M.SetError(old(State()), val)
    {
      if val != error {
        Emit(ErrorRaised(val));
        error := val;
      }
    }

    /**
     * `socket()`, which only `connect` calls, after `validate()` has read the
     * prefs; `built` is false when the host's `WebSocket` constructor throws,
     * and `ok` is false then.
     */
    method Socket(built: bool) returns (ok: bool)
      requires prefs.Some?
      modifies this
      ensures State() == M.OpenSocket(old(State()), built) && ok == built
    {
      var p := prefs.value;
      SetStatus(Connecting);
      timer := None;
      if !built {
        return false;
      }
      wss := Some(M.Socket(ReplaceFirst(p.server, M.Placeholder, p.apiKey), sockets));
      sockets := sockets + 1;
      ok := true;
    }

    /**
     * `ok` is false when `connect` threw: `validate()` reading the API key
     * before the first `configure`, or `socket()` with a rejected URL.
     */
    method Connect(online: bool, built: bool) returns (ok: bool)
      modifies this
      ensures State() == M.Connect(old(State()), online, built)
      ensures ok <==> old(prefs).Some? && (!M.Gate(old(State()), online) || built)
    {
      if prefs.None? {
        return false;
      }
      ok := true;
      if prefs.value.apiKey != "" && offline == false && online && status == Disconnected {
        ok := Socket(built);
      }
    }

    method Disconnect()
      modifies this
      ensures State() == M.Disconnect(old(State()))
    {
      SetStatus(Disconnected);
    }

    method Send(o: Msg)
      modifies this
      ensures State() == M.Send(codec, old(State()), o)
    {
      if prefs.Some? && wss.Some? {
        var msg := codec.stringify(o);
        if prefs.value.password != "" {
          msg := codec.encrypt(prefs.value.password, msg);
        }
        outbox := outbox + [msg];
      }
    }

    method Shutdown()
      modifies this
      ensures State() == M.Shutdown(old(State()))
    {
      offline := true;
      Emit(ShutdownRequested);
      Disconnect();
    }

    method Restart()
      modifies this
      ensures State() == M.Restart(old(State()))
    {
      Shutdown();
      timer := Some(M.Timer(M.RestartDelay, M.Resume));
    }

    /** The pending timer's callback runs; `online` is `navigator.onLine` at that moment. */
    method FireTimer(online: bool, built: bool)
      modifies this
      ensures State() == M.FireTimer(old(State()), online, built)
    {
      match timer
      case None =>
      case Some(t) =>
        timer := None;
        if t.action == M.Resume {
          offline := false;
        }
        var _ := Connect(online, built);
    }

    /** `wss.onopen`. */
    method OnOpen()
      modifies this
      ensures State() == M.SetStatus(old(State()), Connected)
    {
      SetStatus(Connected);
    }

    /** `wss.onclose`. */
    method OnClose()
      modifies this
      ensures State() == M.SetStatus(old(State()), Disconnected)
    {
      SetStatus(Disconnected);
    }

    /** The signalling listener of lines 243-316, for a message `answer` would answer. */
    method Signal(request: Msg, answer: string)
      modifies this
      ensures State() == M.Signal(codec, old(State()), request, answer)
    {
      if request.kind == Some("rtc-offer") && id == request.to {
        var rtc := rtcs;
        sessions := sessions[Key(request.fileID) := rtc];
        rtcs := rtcs + 1;
        rtcCalls := rtcCalls + [M.RtcCall(rtc, M.SetRemote(request.offer))];
        Send(Blank.(from := id, to := request.from, fileID := request.fileID,
                    kind := Some("rtc-answer"), answer := Some(answer)));
      } else if request.kind == Some("rtc-answer") && id == request.to {
        var key := Key(request.fileID);
        if key in sessions {
          rtcCalls := rtcCalls + [M.RtcCall(sessions[key], M.SetRemote(request.answer))];
        }
      } else if request.kind == Some("rtc-candidate") && id == request.to {
        var key := Key(request.fileID);
        if key in sessions {
          rtcCalls := rtcCalls + [M.RtcCall(sessions[key], M.AddCandidate(request.candidate))];
        }
      }
    }

    /** `wss.onmessage` with the frame's text; `answer` is what `createAnswer` yields should it be an offer. */
    method OnMessage(data: string, answer: string)
      modifies this
      ensures State() == M.Receive(codec, old(State()), data, answer)
    {
      if prefs.None? {
        return;
      }
      var password := prefs.value.password;
      var text := data;
      if password != "" && |M.SealedPrefix| <= |data| && data[..|M.SealedPrefix|] == M.SealedPrefix {
        var plain := codec.decrypt(password, data);
        if plain.None? {
          return;
        }
        text := plain.value;
      }
      var parsed := codec.parse(text);
      if parsed.None? {
        return;
      }
      var request := parsed.value;
      if Truthy(request.error) {
        SetError(request.error.value);
        Shutdown();
      }
      Signal(request, answer);
      Emit(MessageReceived(request));
    }

    /**
     * `peer.binary({data, name, type}, to)` with `fileID` for the random
     * id and `offer` for what `createOffer` yields: the cache entry and the
     * `rtc-offer`, plus the sender that then runs on the data channel.
     */
    method Binary(data: Transfer.Bytes, name: string, kind: string, fileID: string, to: Option<string>, offer: string)
      returns (s: Transfer.Sender)
      modifies this
      ensures State() == M.StartTransfer(codec, old(State()), fileID, to, |data|, offer)
      ensures fresh(s) && s.Valid() && s.data == data && s.meta == map["name" := name, "type" := kind]
      ensures s.offset == 0 && s.sent == [] && !s.rtcClosed
      ensures old(prefs).Some? ==> s.armed && s.outcome == Transfer.Pending
      ensures old(prefs).None? ==> !s.armed && s.outcome == Transfer.Rejected(Transfer.SetupThrew)
    {
      if prefs.None? {
        s := new Transfer.Sender.Failed(data, name, kind);
        return;
      }
      sessions := sessions[fileID := rtcs];
      rtcs := rtcs + 1;
      s := new Transfer.Sender(data, name, kind);
      Send(Blank.(from := id, to := to, fileID := Some(fileID), kind := Some("rtc-offer"),
                  offer := Some(offer), size := Some(|data|)));
    }

    /** `rtc.onicecandidate` of the session `fileID` with peer `to`. */
    method LocalCandidate(fileID: Option<string>, to: Option<string>, candidate: Option<string>)
      modifies this
      ensures State() == M.LocalCandidate(codec, old(State()), fileID, to, candidate)
    {
      if candidate.Some? {
        Send(Blank.(from := id, to := to, fileID := fileID, kind := Some("rtc-candidate"),
                    candidate := candidate));
      }
    }

    /** A session's channel closed or its connection failed. */
    method DropSession(key: string, rtc: nat)
      modifies this
      ensures State() == M.DropSession(old(State()), key, rtc)
    {
      sessions := sessions - {key};
      rtcCalls := rtcCalls + [M.RtcCall(rtc, M.CloseRtc)];
    }

    /** The sender's timeout fired. */
    method TimeOut(rtc: nat)
      modifies this
      ensures State() == M.TimeOut(old(State()), rtc)
    {
      rtcCalls := rtcCalls + [M.RtcCall(rtc, M.CloseRtc)];
    }
  }
}
