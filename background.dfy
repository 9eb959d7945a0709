/**
 * The extension's background page (background.js) over the token client of
 * peer.js: the badge, the enablement and titles of the context menus, the
 * parsing of menu ids, the registry of peers present on the network, the
 * whoami/peer/shutdown announcements, remote actions, and the decisions the
 * storage listener takes. The decisions are pure functions with lemmas; the
 * `Extension` class is the page's mutable state, and each of its methods is
 * one listener, proved against those functions.
 */
module Background {
  import opened Wrappers
  import opened Relay
  import TM = TokenMachine
  import TokenPeer

  /** The page's `prefs` object (mirroring `chrome.storage.local`). */
  datatype Prefs = Prefs(name: string, id: string, server: string, token: string, enabled: bool, contexts: seq<string>)

  const DefaultPrefs: Prefs :=
    Prefs("", "", "wss://connect.websocket.in/v2/1?token=[token]", "", true, ["browser_action", "link", "selection"])

  /** What a listener does in the browser: tabs, clipboard, storage writes, context menus. */
  datatype Action =
    | OpenTab(url: Option<string>)
    | CopyText(text: Option<string>)
    | StoreEnabled(enabled: bool)
    | RefreshPeerMenus(peer: string, title: Option<string>)   // remove, then add the three entries
    | RemovePeerMenus(peer: string)

  /** The status strings of the client. */
  function StatusName(s: Status): string {
    match s
    case Disconnected => "DISCONNECTED"
    case Connecting => "CONNECTING"
    case Connected => "CONNECTED"
  }

  // ---------------------------------------------------------------------------
  // The badge (lines 32-42)

  datatype Label = Label(badge: string, tooltip: string)

  function Badge(s: Status): Label {
    match s
    case Connected => Label("", "Connected to the private network")
    case Disconnected => Label("D", "Disconnected from the private network")
    case Connecting => Label("...", "Trying to join the private network")
  }

  /** The badge text alone tells the three statuses apart, and `D` means disconnected. */
  lemma BadgeIdentifiesStatus(s: Status, t: Status)
    ensures Badge(s).badge == Badge(t).badge <==> s == t
    ensures Badge(s).badge == "D" <==> s == Disconnected
  {
  }

  // ---------------------------------------------------------------------------
  // Context-menu enablement (lines 140-164)

  /** What `update` last set: the `enabled` flags and the title of `power`. */
  datatype Menus = Menus(
    restart: bool, browserAction: bool, link: bool, selection: bool, power: bool, powerTitle: string)

  /** The menus as `menu.init` creates them. */
  const InitialMenus: Menus := Menus(false, false, false, false, true, "Join Network")

  /** `update()` with the client's status and the number of known peers. */
  function Update(m: Menus, s: Status, count: nat): Menus {
    var peers := s == Connected && count != 0;
    Menus(s == Connected, peers, peers, peers, StatusName(s) != "connecting",
          if s == Connected then "Disconnect Network"
          else if s == Disconnected then "Join Network"
          else m.powerTitle)
  }

  /**
   * `restart` is enabled exactly when connected; the three send-to menus
   * exactly when connected with at least one peer known; `power` is always
   * enabled, the comparison being against a status string that never
   * occurs; its title follows the two settled statuses and is kept while
   * connecting.
   */
  lemma MenuEnablement(m: Menus, s: Status, count: nat)
    ensures var r := Update(m, s, count);
      && (r.restart <==> s == Connected)
      && (r.browserAction <==> s == Connected && count > 0)
      && (r.link <==> s == Connected && count > 0)
      && (r.selection <==> s == Connected && count > 0)
      && r.power
      && (s == Connected ==> r.powerTitle == "Disconnect Network")
      && (s == Disconnected ==> r.powerTitle == "Join Network")
      && (s == Connecting ==> r.powerTitle == m.powerTitle)
  {
    assert StatusName(Connecting) != "connecting";
  }

  /** Running `update` again with the same status and count changes nothing. */
  lemma UpdateIdempotent(m: Menus, s: Status, count: nat)
    ensures Update(Update(m, s, count), s, count) == Update(m, s, count)
  {
  }

  // ---------------------------------------------------------------------------
  // Menu ids (lines 112-138)

  /** `s.split('-')`. */
  function Split(s: string): (r: seq<string>)
    ensures |r| >= 1
    ensures forall i :: 0 <= i < |r| ==> '-' !in r[i]
  {
    if s == [] then [""]
    else
      var rest := Split(s[1..]);
      if s[0] == '-' then [""] + rest
      else [[s[0]] + rest[0]] + rest[1..]
  }

  /** `parts.join('-')`. */
  function Join(parts: seq<string>): string
    requires |parts| >= 1
  {
    if |parts| == 1 then parts[0] else parts[0] + "-" + Join(parts[1..])
  }

  lemma {:induction false} JoinSplit(s: string)
    ensures Join(Split(s)) == s
    decreases |s|
  {
    if s != [] {
      JoinSplit(s[1..]);
      var rest := Split(s[1..]);
      if s[0] == '-' {
        assert Split(s) == [""] + rest;
        assert ([""] + rest)[1..] == rest;
        assert s == "-" + s[1..];
      } else if |rest| == 1 {
        assert s == [s[0]] + s[1..];
      } else {
        var r := Split(s);
        assert r[1..] == rest[1..];
        assert Join(rest) == rest[0] + "-" + Join(rest[1..]);
        assert s == [s[0]] + s[1..];
      }
    }
  }

  lemma {:induction false} SplitWord(w: string)
    requires '-' !in w
    ensures Split(w) == [w]
    decreases |w|
  {
    if w != [] {
      SplitWord(w[1..]);
      assert [w[0]] + w[1..] == w;
    }
  }

  lemma {:induction false} SplitAfterWord(w: string, s: string)
    requires '-' !in w
    ensures Split(w + "-" + s) == [w] + Split(s)
    decreases |w|
  {
    if w == [] {
      assert w + "-" + s == "-" + s;
      assert ("-" + s)[1..] == s;
    } else {
      var t := w + "-" + s;
      assert t[1..] == w[1..] + "-" + s;
      SplitAfterWord(w[1..], s);
      assert [t[0]] + w[1..] == w;
    }
  }

  /** Joining parts that hold no `-` and splitting again gives the parts back. */
  lemma {:induction false} SplitJoin(parts: seq<string>)
    requires |parts| >= 1
    requires forall i :: 0 <= i < |parts| ==> '-' !in parts[i]
    ensures Split(Join(parts)) == parts
    decreases |parts|
  {
    if |parts| == 1 {
      SplitWord(parts[0]);
    } else {
      SplitJoin(parts[1..]);
      SplitAfterWord(parts[0], Join(parts[1..]));
      assert parts == [parts[0]] + parts[1..];
    }
  }

  /** What a click on a context-menu item asks for. */
  datatype Click = Power | RestartNetwork | Target(context: string, peer: string) | Ignored

  /** `const [context, id] = info.menuItemId.split('-')` after the `power` and `restart` tests; both must be non-empty. */
  function ParseMenuId(item: string): Click {
    if item == "power" then Power
    else if item == "restart" then RestartNetwork
    else
      var parts := Split(item);
      if |parts| >= 2 && parts[0] != "" && parts[1] != "" then Target(parts[0], parts[1]) else Ignored
  }

  /**
   * The id of an entry the registry adds (`context-peer`) parses back to
   * that context and peer; anything joined after a second `-` is dropped.
   */
  lemma ParseMenuIdRoundTrip(context: string, peer: string, rest: seq<string>)
    requires context != "" && peer != "" && '-' !in context && '-' !in peer
    requires forall i :: 0 <= i < |rest| ==> '-' !in rest[i]
    ensures ParseMenuId(Join([context, peer] + rest)) == Target(context, peer)
  {
    var parts := [context, peer] + rest;
    NoDashInParts(context, peer, rest);
    SplitJoin(parts);
    var item := Join(parts);
    NamedItemsUnsplit(item);
    assert Split(item)[0] == context && Split(item)[1] == peer;
  }

  lemma NoDashInParts(context: string, peer: string, rest: seq<string>)
    requires '-' !in context && '-' !in peer
    requires forall i :: 0 <= i < |rest| ==> '-' !in rest[i]
    ensures forall i :: 0 <= i < |[context, peer] + rest| ==> '-' !in ([context, peer] + rest)[i]
  {
    var parts := [context, peer] + rest;
    forall i | 0 <= i < |parts|
      ensures '-' !in parts[i]
    {
      if i >= 2 {
        assert parts[i] == rest[i - 2];
      }
    }
  }

  /** `power` and `restart` split into one part, so an id of several parts is neither. */
  lemma NamedItemsUnsplit(item: string)
    requires |Split(item)| >= 2
    ensures item != "power" && item != "restart"
  {
    SplitWord("power");
    SplitWord("restart");
  }

  /** An item id without `-` other than `power` and `restart` is ignored. */
  lemma PlainIdsIgnored(item: string)
    requires '-' !in item && item != "power" && item != "restart"
    ensures ParseMenuId(item) == Ignored
  {
    SplitWord(item);
  }

  // ---------------------------------------------------------------------------
  // Remote actions (lines 124-135 and 208-229)

  /** The `remote-action` a click on `context-peer` sends. */
  function ClickMessage(p: Prefs, context: string, peer: string, page: Option<string>, link: Option<string>,
                        selectionText: Option<string>): Msg {
    Blank.(kind := Some("remote-action"), id := Some(peer), context := Some(context), page := page,
           link := link, selectionText := selectionText, sender := Some(Who(p.id, p.name)))
  }

  /** What the page does with a `remote-action` request: only one addressed to its own id acts. */
  function RemoteAction(localId: string, request: Msg): Option<Action> {
    if request.kind == Some("remote-action") && request.id == Some(localId) then
      if request.context == Some("browser_action") then Some(OpenTab(request.page))
      else if request.context == Some("link") then Some(OpenTab(request.link))
      else if request.context == Some("selection") then Some(CopyText(request.selectionText))
      else None
    else None
  }

  /** Only a `remote-action` addressed to the local id does anything. */
  lemma RemoteActionAddressed(localId: string, request: Msg)
    ensures RemoteAction(localId, request).Some? ==>
      request.kind == Some("remote-action") && request.id == Some(localId)
  {
  }

  /**
   * A click on the entry `context-peer` at one browser makes the browser
   * whose id is `peer` open the page, open the link or copy the selection.
   */
  lemma ClickActsAtTarget(p: Prefs, context: string, target: Prefs, page: Option<string>, link: Option<string>,
                          selectionText: Option<string>)
    ensures var r := RemoteAction(target.id, ClickMessage(p, context, target.id, page, link, selectionText));
      && (context == "browser_action" ==> r == Some(OpenTab(page)))
      && (context == "link" ==> r == Some(OpenTab(link)))
      && (context == "selection" ==> r == Some(CopyText(selectionText)))
      && (context != "browser_action" && context != "link" && context != "selection" ==> r.None?)
  {
  }

  /** A remote action reaches no other browser. */
  lemma ClickIgnoredElsewhere(p: Prefs, context: string, peer: string, other: Prefs, page: Option<string>,
                              link: Option<string>, selectionText: Option<string>)
    requires other.id != peer
    ensures RemoteAction(other.id, ClickMessage(p, context, peer, page, link, selectionText)).None?
  {
  }

  // ---------------------------------------------------------------------------
  // The registry of peers and the announcements (lines 169-207 and 231-239)

  predicate Announces(request: Msg) {
    request.kind == Some("whoami") || request.kind == Some("peer")
  }

  /** `cache` after a request: `whoami` and `peer` add the sender's id, `shutdown` removes it. */
  function Presence(cache: set<string>, request: Msg): set<string> {
    if Announces(request) then cache + {Key(request.id)}
    else if request.kind == Some("shutdown") then cache - {Key(request.id)}
    else cache
  }

  /** Membership after a request, id by id. */
  lemma PresenceMembership(cache: set<string>, request: Msg, x: string)
    ensures x in Presence(cache, request) <==>
      (Announces(request) && x == Key(request.id)) ||
      (x in cache && !(request.kind == Some("shutdown") && x == Key(request.id)))
  {
  }

  /** Repeating a request leaves the registry as the first one left it. */
  lemma PresenceIdempotent(cache: set<string>, request: Msg)
    ensures Presence(Presence(cache, request), request) == Presence(cache, request)
  {
  }

  /** The announcement sent on connecting. */
  function Whoami(p: Prefs): Msg {
    Blank.(kind := Some("whoami"), id := Some(p.id), name := Some(p.name))
  }

  /** The announcement sent on `shutdown`. */
  function Goodbye(p: Prefs): Msg {
    Blank.(kind := Some("shutdown"), id := Some(p.id))
  }

  /** Only `whoami` is answered, with the local id and name. */
  function Reply(p: Prefs, request: Msg): Option<Msg> {
    if request.kind == Some("whoami") then Some(Blank.(kind := Some("peer"), id := Some(p.id), name := Some(p.name)))
    else None
  }

  /**
   * Two browsers meet: the one receiving `a`'s whoami records `a`, and its
   * reply makes `a` record it; `a`'s goodbye removes `a` again, and nobody
   * answers a reply.
   */
  lemma Handshake(a: Prefs, b: Prefs, atA: set<string>, atB: set<string>)
    ensures a.id in Presence(atB, Whoami(a))
    ensures Reply(b, Whoami(a)).Some? && b.id in Presence(atA, Reply(b, Whoami(a)).value)
    ensures Reply(a, Reply(b, Whoami(a)).value).None?
    ensures Presence(Presence(atB, Whoami(a)), Goodbye(a)) == atB - {a.id}
  {
  }

  /** The browser-side effects of a request besides the registry and the reply. */
  function Reaction(p: Prefs, request: Msg): seq<Action> {
    if Announces(request) then [RefreshPeerMenus(Key(request.id), request.name)]
    else if request.kind == Some("shutdown") then [RemovePeerMenus(Key(request.id))]
    else
      match RemoteAction(p.id, request)
      case Some(a) => [a]
      case None => []
  }

  // ---------------------------------------------------------------------------
  // The storage listener (lines 271-297)

  /** The keys of one `storage.onChanged` event, each with its new value. */
  datatype Change = Change(
    name: Option<string>, id: Option<string>, server: Option<string>, token: Option<string>,
    enabled: Option<bool>, contexts: Option<seq<string>>)

  /** Each changed key takes its new value. */
  function Assign(p: Prefs, ch: Change): Prefs {
    Prefs(ch.name.GetOr(p.name), ch.id.GetOr(p.id), ch.server.GetOr(p.server), ch.token.GetOr(p.token),
          ch.enabled.GetOr(p.enabled), ch.contexts.GetOr(p.contexts))
  }

  /** A call the listener makes on the client, or a write into its prefs. */
  datatype Command = Resume | ShutDown | SetToken(token: string) | SetServer(server: string) | RestartPeer | DisconnectPeer

  function Reconnect(p: Prefs): seq<Command> {
    if p.token != "" then [RestartPeer] else [DisconnectPeer]
  }

  function EnabledRule(ch: Change, p: Prefs): seq<Command> {
    if ch.enabled.Some? && p.enabled then [Resume]
    else if ch.enabled.Some? && !p.enabled then [ShutDown]
    else []
  }

  function TokenRule(ch: Change, p: Prefs): seq<Command> {
    if ch.token.Some? then [SetToken(p.token)] + Reconnect(p) else []
  }

  function ServerRule(ch: Change, p: Prefs): seq<Command> {
    if ch.server.Some? || ch.name.Some? then [SetServer(p.server)] + Reconnect(p) else []
  }

  /** The calls the listener makes, in order, for a change applied over `before`; every rule can fire. */
  function StorageCommands(ch: Change, before: Prefs): seq<Command> {
    var p := Assign(before, ch);
    EnabledRule(ch, p) + TokenRule(ch, p) + ServerRule(ch, p)
  }

  /** The client is resumed and connected exactly when `enabled` changes to true, and shut down exactly when it changes to false. */
  lemma StorageEnables(ch: Change, before: Prefs)
    ensures var cmds := StorageCommands(ch, before);
      && (Resume in cmds <==> ch.enabled == Some(true))
      && (ShutDown in cmds <==> ch.enabled == Some(false))
  {
    var p := Assign(before, ch);
    assert StorageCommands(ch, before) == EnabledRule(ch, p) + (TokenRule(ch, p) + ServerRule(ch, p));
  }

  /**
   * A change of the token, the server or the name restarts the client when
   * a token is set and disconnects it otherwise; only a token change writes
   * the token into the client.
   */
  lemma StorageReconnects(ch: Change, before: Prefs)
    ensures var cmds, p := StorageCommands(ch, before), Assign(before, ch);
      && (RestartPeer in cmds <==> (ch.token.Some? || ch.server.Some? || ch.name.Some?) && p.token != "")
      && (DisconnectPeer in cmds <==> (ch.token.Some? || ch.server.Some? || ch.name.Some?) && p.token == "")
      && (SetToken(p.token) in cmds <==> ch.token.Some?)
  {
    var p := Assign(before, ch);
    assert StorageCommands(ch, before) == EnabledRule(ch, p) + (TokenRule(ch, p) + ServerRule(ch, p));
  }

  /** A token and a server changed together restart the client twice. */
  lemma StorageRestartsTwice(ch: Change, before: Prefs)
    requires ch.token.Some? && ch.server.Some? && Assign(before, ch).token != ""
    ensures multiset(StorageCommands(ch, before))[RestartPeer] == 2
  {
    var p := Assign(before, ch);
    var e := EnabledRule(ch, p);
    assert StorageCommands(ch, before) == e + [SetToken(p.token), RestartPeer, SetServer(p.server), RestartPeer];
    assert RestartPeer !in multiset(e);
  }

  /**
   * One command on the client's state; `ok` is false when the call threw.
   * `online` is `navigator.onLine`; `built` says whether the host's
   * `WebSocket` constructor accepts the server URL.
   */
  function Exec(c: TM.Conn, cmd: Command, online: bool, built: bool): TM.Step {
    match cmd
    case Resume => TM.Connect(c.(offline := false), online, built)
    case ShutDown => TM.Shutdown(c)
    case SetToken(t) => TM.Step(c.(prefs := c.prefs.(token := t)), true)
    case SetServer(s) => TM.Step(c.(prefs := c.prefs.(server := s)), true)
    case RestartPeer => TM.Restart(c)
    case DisconnectPeer => TM.Disconnect(c)
  }

  /** The commands in order; a call that throws ends the listener. */
  function ExecAll(c: TM.Conn, cmds: seq<Command>, online: bool, built: bool): TM.Step
    decreases |cmds|
  {
    if cmds == [] then TM.Step(c, true)
    else
      var s := Exec(c, cmds[0], online, built);
      if !s.ok then s else ExecAll(s.conn, cmds[1..], online, built)
  }

  lemma {:induction false} ExecAllAppend(c: TM.Conn, a: seq<Command>, b: seq<Command>, online: bool, built: bool)
    ensures ExecAll(c, a + b, online, built) ==
      var s := ExecAll(c, a, online, built); if !s.ok then s else ExecAll(s.conn, b, online, built)
    decreases |a|
  {
    if a == [] {
      assert a + b == b;
    } else {
      assert (a + b)[0] == a[0] && (a + b)[1..] == a[1..] + b;
      var s := Exec(c, a[0], online, built);
      if s.ok {
        ExecAllAppend(s.conn, a[1..], b, online, built);
      }
    }
  }

  lemma ExecPair(c: TM.Conn, a: Command, b: Command, online: bool, built: bool)
    ensures ExecAll(c, [a, b], online, built) ==
      var s := Exec(c, a, online, built); if !s.ok then s else Exec(s.conn, b, online, built)
  {
    var s := Exec(c, a, online, built);
    if s.ok {
      assert [a, b][0] == a && [a, b][1..] == [b];
      assert ExecAll(c, [a, b], online, built) == ExecAll(s.conn, [b], online, built);
      var s2 := Exec(s.conn, b, online, built);
      assert [b][0] == b && [b][1..] == [];
      assert ExecAll(s.conn, [b], online, built) == if !s2.ok then s2 else ExecAll(s2.conn, [], online, built);
    }
  }

  /**
   * Turning the extension off before any socket exists makes `shutdown`
   * throw: the client is left offline, and a token changed in the same
   * event never reaches it.
   */
  lemma DisableWithoutSocketStops(c: TM.Conn, ch: Change, before: Prefs, online: bool, built: bool)
    requires c.wss.None? && ch.enabled == Some(false)
    ensures var r := ExecAll(c, StorageCommands(ch, before), online, built);
      !r.ok && r.conn.offline && r.conn.prefs == c.prefs && r.conn.wss.None?
  {
    var p := Assign(before, ch);
    assert StorageCommands(ch, before) == [ShutDown] + (TokenRule(ch, p) + ServerRule(ch, p));
    ExecAllAppend(c, [ShutDown], TokenRule(ch, p) + ServerRule(ch, p), online, built);
  }

  /**
   * A new non-empty token alone, with a socket open: the client gets the
   * token, is shut down and left with the single 1000 ms restart timer.
   */
  lemma NewTokenRestarts(c: TM.Conn, before: Prefs, token: string, online: bool, built: bool)
    requires c.wss.Some? && token != ""
    ensures var ch := Change(None, None, None, Some(token), None, None);
      var r := ExecAll(c, StorageCommands(ch, before), online, built);
      r.ok && r.conn.prefs.token == token && r.conn.offline && r.conn.status == Disconnected &&
      r.conn.timer == Some(TM.Timer(TM.RestartDelay, TM.Resume))
  {
    var ch := Change(None, None, None, Some(token), None, None);
    assert StorageCommands(ch, before) == [SetToken(token), RestartPeer];
    var c1 := c.(prefs := c.prefs.(token := token));
    assert ExecAll(c, [SetToken(token), RestartPeer], online, built) == ExecAll(c1, [RestartPeer], online, built);
  }

  // ---------------------------------------------------------------------------
  // The page

  /** The page's mutable state; `peer` is the client of peer.js it drives. */
  class Extension {
    const peer: TokenPeer.Peer
    var prefs: Prefs
    var cache: set<string>
    var badge: Label
    var menus: Menus
    var actions: seq<Action>

    /** The page once `menu.init` has run, before any peer is known; `title` is the extension's name. */
    constructor (json: TokenPeer.Json, title: string)
      ensures fresh(peer) && peer.json == json && peer.State() == TM.Initial()
      ensures prefs == DefaultPrefs && cache == {} && badge == Label("D", title)
      ensures menus == InitialMenus && actions == []
    {
      peer := new TokenPeer.Peer(json);
      prefs, cache, badge, menus, actions := DefaultPrefs, {}, Label("D", title), InitialMenus, [];
    }

    /** The three `status` listeners: the badge, `update`, and the whoami sent on connecting. */
    method OnStatus(newValue: Status)
      modifies this, peer
      ensures badge == Badge(newValue)
      ensures menus == Update(old(menus), old(peer.status), |cache|)
      ensures newValue == Connected ==>
        peer.State() == TM.Send(old(peer.State()), peer.json.stringify(Whoami(prefs)))
      ensures newValue != Connected ==> peer.State() == old(peer.State())
      ensures prefs == old(prefs) && cache == old(cache) && actions == old(actions)
    {
      badge := Badge(newValue);
      menus := Update(menus, peer.status, |cache|);
      if newValue == Connected {
        peer.Send(Whoami(prefs));
      }
    }

    /** The `shutdown` listener: the goodbye announcement. */
    method OnShutdown()
      modifies peer
      ensures peer.State() == TM.Send(old(peer.State()), peer.json.stringify(Goodbye(prefs)))
    {
      peer.Send(Goodbye(prefs));
    }

    /** The `message` listener. */
    method OnMessage(request: Msg)
      modifies this, peer
      ensures cache == Presence(old(cache), request)
      ensures actions == old(actions) + Reaction(prefs, request)
      ensures var c1 := if Reply(prefs, request).Some?
                        then TM.Send(old(peer.State()), peer.json.stringify(Reply(prefs, request).value))
                        else old(peer.State());
        peer.State() == if Announces(request) || request.kind == Some("shutdown") then TM.Emit(c1, FakeStatus) else c1
      ensures menus == if Announces(request) || request.kind == Some("shutdown")
                       then Update(old(menus), peer.status, |cache|) else old(menus)
      ensures prefs == old(prefs) && badge == old(badge)
    {
      if request.kind == Some("whoami") {
        peer.Send(Blank.(kind := Some("peer"), id := Some(prefs.id), name := Some(prefs.name)));
      }
      if request.kind == Some("whoami") || request.kind == Some("peer") {
        cache := cache + {Key(request.id)};
        peer.Emit(FakeStatus);
        menus := Update(menus, peer.status, |cache|);
        actions := actions + [RefreshPeerMenus(Key(request.id), request.name)];
      } else if request.kind == Some("shutdown") {
        cache := cache - {Key(request.id)};
        peer.Emit(FakeStatus);
        menus := Update(menus, peer.status, |cache|);
        actions := actions + [RemovePeerMenus(Key(request.id))];
      } else if request.kind == Some("remote-action") && request.id == Some(prefs.id) {
        if request.context == Some("browser_action") {
          actions := actions + [OpenTab(request.page)];
        } else if request.context == Some("link") {
          actions := actions + [OpenTab(request.link)];
        } else if request.context == Some("selection") {
          actions := actions + [CopyText(request.selectionText)];
        }
      }
    }

    /** The context-menu click listener; `ok` is false when `peer.restart()` threw. */
    method OnMenuClick(item: string, page: Option<string>, link: Option<string>, selectionText: Option<string>)
      returns (ok: bool)
      modifies this, peer
      ensures ParseMenuId(item) == Power ==>
        ok && actions == old(actions) + [StoreEnabled(prefs.enabled == false)] && peer.State() == old(peer.State())
      ensures ParseMenuId(item) == RestartNetwork ==>
        TM.Step(peer.State(), ok) == TM.Restart(old(peer.State())) && actions == old(actions)
      ensures ParseMenuId(item).Target? ==>
        var t := ParseMenuId(item);
        ok && actions == old(actions) &&
        peer.State() == TM.Send(old(peer.State()),
          peer.json.stringify(ClickMessage(prefs, t.context, t.peer, page, link, selectionText)))
      ensures ParseMenuId(item) == Ignored ==> ok && actions == old(actions) && peer.State() == old(peer.State())
      ensures prefs == old(prefs) && cache == old(cache) && badge == old(badge) && menus == old(menus)
    {
      ok := true;
      if item == "power" {
        actions := actions + [StoreEnabled(prefs.enabled == false)];
      } else if item == "restart" {
        ok := peer.Restart();
      } else {
        var parts := Split(item);
        if |parts| >= 2 && parts[0] != "" && parts[1] != "" {
          peer.Send(ClickMessage(prefs, parts[0], parts[1], page, link, selectionText));
        }
      }
    }

    /**
     * The `storage.onChanged` listener up to the menu visibility: the new
     * values are stored, then the rules run in order until a call on the
     * client throws (`ok` false).
     */
    method OnStorageChanged(ch: Change, online: bool, built: bool) returns (ok: bool)
      modifies this, peer
      ensures prefs == Assign(old(prefs), ch)
      ensures TM.Step(peer.State(), ok) == ExecAll(old(peer.State()), StorageCommands(ch, old(prefs)), online, built)
      ensures cache == old(cache) && badge == old(badge) && menus == old(menus) && actions == old(actions)
    {
      ghost var c0 := peer.State();
      ghost var before := prefs;
      prefs := Assign(prefs, ch);
      ghost var e, t, s := EnabledRule(ch, prefs), TokenRule(ch, prefs), ServerRule(ch, prefs);
      assert StorageCommands(ch, before) == e + (t + s);
      ExecAllAppend(c0, e, t + s, online, built);
      ok := RunEnabledRule(ch, online, built);
      if !ok {
        return;
      }
      ghost var c1 := peer.State();
      ExecAllAppend(c1, t, s, online, built);
      ok := RunTokenRule(ch, online, built);
      if !ok {
        return;
      }
      ok := RunServerRule(ch, online, built);
    }

    /** `enabled` changed: resume and connect, or shut down. */
    method RunEnabledRule(ch: Change, online: bool, built: bool) returns (ok: bool)
      modifies peer
      ensures TM.Step(peer.State(), ok) == ExecAll(old(peer.State()), EnabledRule(ch, prefs), online, built)
    {
      ok := true;
      if ch.enabled.Some? && prefs.enabled {
        peer.offline := false;
        ok := peer.Connect(online, built);
      }
      if ch.enabled.Some? && !prefs.enabled {
        ok := peer.Shutdown();
      }
    }

    /** `token` changed: hand it to the client, then restart or disconnect. */
    method RunTokenRule(ch: Change, online: bool, built: bool) returns (ok: bool)
      modifies peer
      ensures TM.Step(peer.State(), ok) == ExecAll(old(peer.State()), TokenRule(ch, prefs), online, built)
    {
      ok := true;
      if ch.token.Some? {
        ExecPair(peer.State(), SetToken(prefs.token), Reconnect(prefs)[0], online, built);
        peer.prefs := peer.prefs.(token := prefs.token);
        ok := RestartOrDisconnect();
      }
    }

    /** `server` or `name` changed: hand the server to the client, then restart or disconnect. */
    method RunServerRule(ch: Change, online: bool, built: bool) returns (ok: bool)
      modifies peer
      ensures TM.Step(peer.State(), ok) == ExecAll(old(peer.State()), ServerRule(ch, prefs), online, built)
    {
      ok := true;
      if ch.server.Some? || ch.name.Some? {
        ExecPair(peer.State(), SetServer(prefs.server), Reconnect(prefs)[0], online, built);
        peer.prefs := peer.prefs.(server := prefs.server);
        ok := RestartOrDisconnect();
      }
    }

    /** Restart the client when a token is set, disconnect it otherwise. */
    method RestartOrDisconnect() returns (ok: bool)
      modifies peer
      ensures prefs.token != "" ==> TM.Step(peer.State(), ok) == TM.Restart(old(peer.State()))
      ensures prefs.token == "" ==> TM.Step(peer.State(), ok) == TM.Disconnect(old(peer.State()))
    {
      if prefs.token != "" {
        ok := peer.Restart();
      } else {
        ok := peer.Disconnect();
      }
    }
  }
}
