/**
 * Vocabulary shared by both generations of the relay client (peer.js and
 * peer/peer.js): the connection status, relay messages with JSON abstracted
 * away, the events the client emits, the reconnection schedule and the
 * server-URL template.
 */
module Relay {
  import opened Wrappers

  /** The three values of `_status`. */
  datatype Status = Disconnected | Connecting | Connected

  /** The `sender` object of a `remote-action`. */
  datatype Who = Who(id: string, name: string)

  /**
   * A relay message after `JSON.parse`: one optional field per key the code
   * reads or writes; `None` is a missing key (`undefined`). The `method`
   * key is called `kind` here, `method` being a keyword.
   */
  datatype Msg = Msg(
    kind: Option<string>, id: Option<string>, name: Option<string>, error: Option<string>,
    from: Option<string>, to: Option<string>, fileID: Option<string>,
    offer: Option<string>, answer: Option<string>, candidate: Option<string>, size: Option<int>,
    context: Option<string>, page: Option<string>, link: Option<string>,
    selectionText: Option<string>, sender: Option<Who>)

  /** The message with no keys at all; the others are built from it with `.(key := ...)`. */
  const Blank: Msg := Msg(None, None, None, None, None, None, None, None, None, None, None,
                          None, None, None, None, None)

  /** JavaScript truthiness of a string-or-undefined value. */
  predicate Truthy(v: Option<string>) {
    v.Some? && v.value != ""
  }

  /** The property key under which `o[v]` is stored for a string-or-undefined `v`. */
  function Key(v: Option<string>): string {
    match v
    case Some(s) => s
    case None => "undefined"
  }

  function Min(a: int, b: int): int {
    if a <= b then a else b
  }

  // ---------------------------------------------------------------------------
  // Events: `on(name, callback)` registers, `emit(name, ...)` calls the
  // callbacks registered under that name, in registration order.

  /** An opaque reference to a callback registered from outside the client. */
  type Callback = nat

  datatype Event =
    | StatusChanged(newValue: Status, oldValue: Status)
    | ErrorRaised(error: string)
    | ShutdownRequested
    | MessageReceived(request: Msg)
    | FakeStatus      // emitted by the extension when its peer list changes

  /** The event name `emit` is called with. */
  function Name(e: Event): string {
    match e
    case StatusChanged(_, _) => "status"
    case ErrorRaised(_) => "error"
    case ShutdownRequested => "shutdown"
    case MessageReceived(_) => "message"
    case FakeStatus => "fake-status"
  }

  /** One call of `emit`: the event and the callbacks it reached. */
  datatype Emission = Emission(event: Event, callbacks: seq<Callback>)

  /** `events[name] || []`. */
  function Listeners(events: map<string, seq<Callback>>, name: string): seq<Callback> {
    if name in events then events[name] else []
  }

  /** `on(name, callback)`: the callback joins the end of the list for `name`. */
  function Register(events: map<string, seq<Callback>>, name: string, cb: Callback)
    : (r: map<string, seq<Callback>>)
    ensures Listeners(r, name) == Listeners(events, name) + [cb]
    ensures forall n :: n != name ==> Listeners(r, n) == Listeners(events, n)
  {
    events[name := Listeners(events, name) + [cb]]
  }

  /** The sequence of `newValue`s carried by the status events among `es`. */
  function StatusTrail(es: seq<Emission>): seq<Status> {
    if es == [] then []
    else
      StatusTrail(es[..|es| - 1]) +
      match es[|es| - 1].event
      case StatusChanged(v, _) => [v]
      case _ => []
  }

  /** No two neighbouring entries are equal. */
  ghost predicate NoStutter(s: seq<Status>) {
    forall i :: 0 < i < |s| ==> s[i - 1] != s[i]
  }

  /** The statuses announced by `es`, after the initial DISCONNECTED, never repeat a value and end at `s`. */
  ghost predicate TrailEndsAt(es: seq<Emission>, s: Status) {
    var trail := [Disconnected] + StatusTrail(es);
    trail[|trail| - 1] == s && NoStutter(trail)
  }

  lemma TrailAppend(es: seq<Emission>, e: Emission)
    ensures StatusTrail(es + [e]) ==
      StatusTrail(es) + match e.event case StatusChanged(v, _) => [v] case _ => []
  {
    assert (es + [e])[..|es|] == es;
  }

  /** An emission that is not a status event leaves the trail where it was. */
  lemma TrailQuiet(es: seq<Emission>, e: Emission, s: Status)
    requires TrailEndsAt(es, s) && !e.event.StatusChanged?
    ensures TrailEndsAt(es + [e], s)
  {
    TrailAppend(es, e);
    assert StatusTrail(es + [e]) == StatusTrail(es);
  }

  /** A status event for a value other than the current one extends the trail to that value. */
  lemma TrailStep(es: seq<Emission>, s: Status, val: Status, cbs: seq<Callback>)
    requires TrailEndsAt(es, s) && val != s
    ensures TrailEndsAt(es + [Emission(StatusChanged(val, val), cbs)], val)
  {
    var e := Emission(StatusChanged(val, val), cbs);
    TrailAppend(es, e);
    assert [Disconnected] + StatusTrail(es + [e]) == [Disconnected] + StatusTrail(es) + [val];
  }

  // ---------------------------------------------------------------------------
  // Reconnection backoff (the two `status` listeners of either client).

  /**
   * The delay handed to `setTimeout` for `reconnect[k]`: an index outside
   * the array reads `undefined`, which `setTimeout` treats as 0.
   */
  function Delay(schedule: seq<int>, k: int): (d: int)
    ensures 0 <= k < |schedule| ==> d == schedule[k]
    ensures !(0 <= k < |schedule|) ==> d == 0
  {
    if 0 <= k < |schedule| then schedule[k] else 0
  }

  /** `Math.min(reconnect.length - 1, k + 1)`: the index after a transition to DISCONNECTED. */
  function NextAttempt(schedule: seq<int>, k: int): (r: int)
    ensures |schedule| > 0 && 0 <= k < |schedule| ==> 0 <= r < |schedule|
    ensures k >= -1 ==> r >= -1
    ensures 0 <= k < |schedule| - 1 ==> r == k + 1
  {
    Min(|schedule| - 1, k + 1)
  }

  /** The index after `n` transitions to DISCONNECTED with no CONNECTED in between, starting from 0. */
  function AttemptAfter(schedule: seq<int>, n: nat): int {
    if n == 0 then 0 else NextAttempt(schedule, AttemptAfter(schedule, n - 1))
  }

  /** With a non-empty schedule the index saturates at the last entry. */
  lemma {:induction false} AttemptAfterSaturates(schedule: seq<int>, n: nat)
    requires |schedule| > 0
    ensures AttemptAfter(schedule, n) == Min(n, |schedule| - 1)
  {
    if n > 0 {
      AttemptAfterSaturates(schedule, n - 1);
    }
  }

  /** The (n+1)-th consecutive disconnection waits `schedule[min(n, len - 1)]`. */
  lemma BackoffDelay(schedule: seq<int>, n: nat)
    requires |schedule| > 0
    ensures Delay(schedule, AttemptAfter(schedule, n)) == schedule[Min(n, |schedule| - 1)]
  {
    AttemptAfterSaturates(schedule, n);
  }

  // ---------------------------------------------------------------------------
  // The gate of `connect` and the server URL.

  /** `validate()`: a credential, not switched off, the host online, and currently DISCONNECTED. */
  predicate Validate(credential: string, offline: bool, online: bool, status: Status) {
    credential != "" && !offline && online && status == Disconnected
  }

  /** `pat` occurs in `s` starting at index `j`. */
  predicate OccursAt(s: string, pat: string, j: int) {
    0 <= j && j + |pat| <= |s| && s[j..j + |pat|] == pat
  }

  /** The first index at which `pat` occurs in `s`, as `String.prototype.indexOf`. */
  function IndexOf(s: string, pat: string): (r: Option<nat>)
    ensures r.Some? ==> OccursAt(s, pat, r.value)
    ensures r.Some? ==> forall j :: 0 <= j < r.value ==> !OccursAt(s, pat, j)
    ensures r.None? ==> forall j :: !OccursAt(s, pat, j)
    decreases |s|
  {
    if |pat| > |s| then None
    else if s[..|pat|] == pat then Some(0)
    else
      match IndexOf(s[1..], pat)
      case None =>
        assert forall j :: 1 <= j ==> OccursAt(s, pat, j) == OccursAt(s[1..], pat, j - 1);
        None
      case Some(i) =>
        assert forall j :: 1 <= j ==> OccursAt(s, pat, j) == OccursAt(s[1..], pat, j - 1);
        Some(i + 1)
  }

  /**
   * `s.replace(pat, rep)` with a string pattern: only the first occurrence
   * is replaced (`$` patterns in `rep` are not interpreted).
   */
  function ReplaceFirst(s: string, pat: string, rep: string): (r: string)
    ensures IndexOf(s, pat).None? ==> r == s
    ensures IndexOf(s, pat).Some? ==>
      var i := IndexOf(s, pat).value;
      OccursAt(r, rep, i) && r[..i] == s[..i] && r[i + |rep|..] == s[i + |pat|..]
  {
    match IndexOf(s, pat)
    case None => s
    case Some(i) => s[..i] + rep + s[i + |pat|..]
  }

  /** Every occurrence after the first survives the replacement, shifted by the length difference. */
  lemma LaterOccurrencesSurvive(s: string, pat: string, rep: string, j: int)
    requires IndexOf(s, pat).Some? && j >= IndexOf(s, pat).value + |pat|
    requires OccursAt(s, pat, j)
    ensures OccursAt(ReplaceFirst(s, pat, rep), pat, j - |pat| + |rep|)
  {
    var i := IndexOf(s, pat).value;
    var r := ReplaceFirst(s, pat, rep);
    var k := j - |pat| + |rep|;
    assert r[i + |rep|..] == s[i + |pat|..];
    assert r[k..k + |pat|] == r[i + |rep|..][j - i - |pat|..j - i];
  }
}
