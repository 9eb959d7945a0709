/**
 * The file transfer of peer/peer.js over an open data channel: the sender
 * closure of `peer.binary` (stop-and-wait: one chunk per inbound event,
 * a JSON preamble first) and the receiver the `rtc-offer` handler installs
 * on the incoming channel (append, count, acknowledge, complete).
 */
module Transfer {
  import opened Wrappers

  newtype byte = x: int | 0 <= x < 256

  type Bytes = seq<byte>

  /** A JSON object of strings, such as the preamble `{name, type}`. */
  type Meta = map<string, string>

  /** A data-channel message: a JSON text (carried parsed) or an ArrayBuffer. */
  datatype Frame = Text(fields: Meta) | Data(bytes: Bytes)

  datatype Failure =
    | TimedOut       // `File Transfer Timeout`
    | ChannelClosed  // `File Transfer Failed`
    | ChannelError   // the channel's `error` event
    | SetupThrew     // the synchronous part of `peer.binary` threw

  /** The state of the sender's promise. */
  datatype Outcome = Pending | Resolved | Rejected(reason: Failure)

  /** `resolve`/`reject`: only the first settlement counts. */
  function Settle(o: Outcome, r: Outcome): Outcome {
    if o.Pending? then r else o
  }

  function Min(a: int, b: int): int {
    if a <= b then a else b
  }

  /** `data.slice(offset, offset + chunkSize)`. */
  function Slice(data: Bytes, offset: nat, chunkSize: nat): (r: Bytes)
    requires offset <= |data|
    ensures |r| == Min(chunkSize, |data| - offset)
    ensures r == data[offset..offset + |r|]
  {
    data[offset..Min(offset + chunkSize, |data|)]
  }

  /** The frames one sender step writes: the preamble at offset 0, then a chunk while data remains. */
  function StepFrames(meta: Meta, data: Bytes, offset: nat, chunkSize: nat): seq<Frame>
    requires offset <= |data|
  {
    (if offset == 0 then [Text(meta)] else []) +
    (if offset < |data| then [Data(Slice(data, offset, chunkSize))] else [])
  }

  /** The offset after one sender step. */
  function NextOffset(data: Bytes, offset: nat, chunkSize: nat): (r: nat)
    requires offset <= |data|
    ensures offset <= r <= |data|
    ensures offset < |data| && chunkSize > 0 ==> offset < r
    ensures offset < |data| ==> r == offset + |Slice(data, offset, chunkSize)|
  {
    if offset < |data| then offset + |Slice(data, offset, chunkSize)| else offset
  }

  /** The chunks the sender writes from `offset` on, one per step, until the data is exhausted. */
  function Chunks(data: Bytes, offset: nat, chunkSize: nat): seq<Bytes>
    requires 0 < chunkSize && offset <= |data|
    decreases |data| - offset
  {
    if offset == |data| then []
    else [Slice(data, offset, chunkSize)] + Chunks(data, NextOffset(data, offset, chunkSize), chunkSize)
  }

  function Flatten(chunks: seq<Bytes>): Bytes {
    if chunks == [] then [] else chunks[0] + Flatten(chunks[1..])
  }

  function DataFrames(chunks: seq<Bytes>): (r: seq<Frame>)
    ensures |r| == |chunks| && forall i :: 0 <= i < |r| ==> r[i] == Data(chunks[i])
  {
    if chunks == [] then [] else [Data(chunks[0])] + DataFrames(chunks[1..])
  }

  /**
   * Everything the sender writes from `offset` on when each step is
   * triggered by the next inbound event, up to and including the step that
   * resolves.
   */
  function Transcript(meta: Meta, data: Bytes, offset: nat, chunkSize: nat): seq<Frame>
    requires 0 < chunkSize && offset <= |data|
    decreases |data| - offset
  {
    StepFrames(meta, data, offset, chunkSize) +
    if offset < |data| then Transcript(meta, data, NextOffset(data, offset, chunkSize), chunkSize) else []
  }

  lemma {:induction false} FlattenAppend(chunks: seq<Bytes>, more: seq<Bytes>)
    ensures Flatten(chunks + more) == Flatten(chunks) + Flatten(more)
  {
    if chunks != [] {
      assert (chunks + more)[1..] == chunks[1..] + more;
      FlattenAppend(chunks[1..], more);
    } else {
      assert chunks + more == more;
    }
  }

  /** The chunks concatenate to the rest of the data. */
  lemma {:induction false} ChunksConcatenate(data: Bytes, offset: nat, chunkSize: nat)
    requires 0 < chunkSize && offset <= |data|
    ensures Flatten(Chunks(data, offset, chunkSize)) == data[offset..]
    decreases |data| - offset
  {
    if offset < |data| {
      var next := NextOffset(data, offset, chunkSize);
      ChunksConcatenate(data, next, chunkSize);
      assert Chunks(data, offset, chunkSize)[1..] == Chunks(data, next, chunkSize);
      assert data[offset..] == data[offset..next] + data[next..];
    }
  }

  /**
   * There are `ceil((n - offset) / chunkSize)` chunks, stated without
   * division: `(k - 1) * chunkSize < n - offset <= k * chunkSize`. Each is
   * non-empty, every one but the last is exactly `chunkSize` long and the
   * last holds the remainder.
   */
  lemma {:induction false} ChunksShape(data: Bytes, offset: nat, chunkSize: nat)
    requires 0 < chunkSize && offset <= |data|
    ensures var k, m := |Chunks(data, offset, chunkSize)|, |data| - offset;
      (k == 0 <==> m == 0) && m <= k * chunkSize && (k > 0 ==> (k - 1) * chunkSize < m)
    ensures var cs := Chunks(data, offset, chunkSize);
      forall i :: 0 <= i < |cs| ==> 0 < |cs[i]| <= chunkSize && (i < |cs| - 1 ==> |cs[i]| == chunkSize)
    ensures var cs, m := Chunks(data, offset, chunkSize), |data| - offset;
      |cs| > 0 ==> |cs[|cs| - 1]| == m - (|cs| - 1) * chunkSize
    decreases |data| - offset
  {
    if offset < |data| {
      var m := |data| - offset;
      var next := NextOffset(data, offset, chunkSize);
      ChunksShape(data, next, chunkSize);
      var cs := Chunks(data, offset, chunkSize);
      var tail := Chunks(data, next, chunkSize);
      assert cs[1..] == tail;
      var k := |tail|;
      if m <= chunkSize {
        assert next == |data| && k == 0;
      } else {
        assert next == offset + chunkSize;
        assert (k + 1) * chunkSize == k * chunkSize + chunkSize;
        assert k > 0;
        assert k * chunkSize == (k - 1) * chunkSize + chunkSize;
      }
    }
  }

  /** The transcript is the preamble followed by one frame per chunk, in order. */
  lemma {:induction false} TranscriptFrom(meta: Meta, data: Bytes, offset: nat, chunkSize: nat)
    requires 0 < chunkSize && offset <= |data|
    ensures offset > 0 ==> Transcript(meta, data, offset, chunkSize) == DataFrames(Chunks(data, offset, chunkSize))
    ensures offset == 0 ==> Transcript(meta, data, offset, chunkSize) == [Text(meta)] + DataFrames(Chunks(data, offset, chunkSize))
    decreases |data| - offset
  {
    if offset < |data| {
      var next := NextOffset(data, offset, chunkSize);
      TranscriptFrom(meta, data, next, chunkSize);
      var cs := Chunks(data, offset, chunkSize);
      assert cs == [cs[0]] + Chunks(data, next, chunkSize);
      assert DataFrames(cs) == [Data(cs[0])] + DataFrames(Chunks(data, next, chunkSize));
    }
  }

  /**
   * A whole transfer, as the sender writes it: the preamble once, then
   * chunks that concatenate to the data, `ceil(n / chunkSize)` of them.
   */
  lemma SenderTranscript(meta: Meta, data: Bytes, chunkSize: nat)
    requires 0 < chunkSize
    ensures var cs := Chunks(data, 0, chunkSize);
      Transcript(meta, data, 0, chunkSize) == [Text(meta)] + DataFrames(cs) &&
      Flatten(cs) == data && |data| <= |cs| * chunkSize && (|cs| > 0 ==> (|cs| - 1) * chunkSize < |data|)
  {
    TranscriptFrom(meta, data, 0, chunkSize);
    ChunksConcatenate(data, 0, chunkSize);
    ChunksShape(data, 0, chunkSize);
  }

  /**
   * One sender step keeps what was sent a prefix of the transcript: if
   * `sent` followed by the rest of the transcript from `offset` is the whole
   * transcript, so it is after the step, taken as `Sender.OnEvent` takes it
   * (`sent + StepFrames`, then `NextOffset`). From a fresh sender (`sent ==
   * []`, offset 0) every sequence of events at one chunk size thus writes a
   * prefix of `Transcript`. (An empty file is left out: its
   * sender writes the preamble again on every event.)
   */
  lemma StepFollowsTranscript(meta: Meta, data: Bytes, offset: nat, chunkSize: nat, sent: seq<Frame>)
    requires 0 < chunkSize && offset <= |data| && 0 < |data|
    requires sent + Transcript(meta, data, offset, chunkSize) == Transcript(meta, data, 0, chunkSize)
    ensures var sent', offset' := sent + StepFrames(meta, data, offset, chunkSize), NextOffset(data, offset, chunkSize);
      sent' + Transcript(meta, data, offset', chunkSize) == Transcript(meta, data, 0, chunkSize)
  {
    StepKeepsRest(meta, data, offset, chunkSize, sent, Transcript(meta, data, 0, chunkSize));
  }

  /** `StepFollowsTranscript` for any `whole` in place of the transcript from 0. */
  lemma StepKeepsRest(meta: Meta, data: Bytes, offset: nat, chunkSize: nat, sent: seq<Frame>, whole: seq<Frame>)
    requires 0 < chunkSize && offset <= |data| && 0 < |data|
    requires sent + Transcript(meta, data, offset, chunkSize) == whole
    ensures var sent', offset' := sent + StepFrames(meta, data, offset, chunkSize), NextOffset(data, offset, chunkSize);
      sent' + Transcript(meta, data, offset', chunkSize) == whole
  {
    var step, next := StepFrames(meta, data, offset, chunkSize), NextOffset(data, offset, chunkSize);
    if offset < |data| {
      assert Transcript(meta, data, offset, chunkSize) == step + Transcript(meta, data, next, chunkSize);
      assert (sent + step) + Transcript(meta, data, next, chunkSize) == sent + (step + Transcript(meta, data, next, chunkSize));
    } else {
      assert step == [];
    }
  }

  /** 3500 bytes in 1024-byte chunks: four chunks of 1024, 1024, 1024 and 428 bytes. */
  lemma ThirtyFiveHundredBytes(data: Bytes)
    requires |data| == 3500
    ensures var cs := Chunks(data, 0, 1024);
      |cs| == 4 && |cs[0]| == 1024 && |cs[1]| == 1024 && |cs[2]| == 1024 && |cs[3]| == 428
  {
    ChunksShape(data, 0, 1024);
  }

  /**
   * Fed the sender's chunks of `data` with `size` announced as `|data|`,
   * the receiver's running size equals the announced size after the last
   * chunk and after no earlier one: it completes exactly once.
   */
  lemma {:induction false} ReceiverCompletesOnLastChunk(data: Bytes, chunkSize: nat, j: nat)
    requires 0 < chunkSize && j < |Chunks(data, 0, chunkSize)|
    ensures var cs := Chunks(data, 0, chunkSize);
      |Flatten(cs[..j + 1])| == |data| <==> j == |cs| - 1
  {
    var cs := Chunks(data, 0, chunkSize);
    ChunksConcatenate(data, 0, chunkSize);
    ChunksShape(data, 0, chunkSize);
    assert cs == cs[..j + 1] + cs[j + 1..];
    FlattenAppend(cs[..j + 1], cs[j + 1..]);
    if j < |cs| - 1 {
      var rest := cs[j + 1..];
      assert rest == [rest[0]] + rest[1..];
      FlattenAppend([rest[0]], rest[1..]);
      assert Flatten([rest[0]]) == rest[0];
    } else {
      assert cs[j + 1..] == [];
    }
  }

  /** The `binary` event: the preamble fields and the chunks, as the receiver holds them. */
  datatype Delivery = Delivery(info: Meta, chunks: seq<Bytes>)

  /** The sender closure of `peer.binary` (lines 177-216) once its channel exists. */
  class Sender {
    const data: Bytes
    const meta: Meta
    var offset: nat
    var sent: seq<Frame>   // what `channel.send` was given, in order
    var armed: bool        // the sliding timeout is pending
    var outcome: Outcome
    var rtcClosed: bool

    ghost predicate Valid()
      reads this
    {
      offset <= |data|
    }

    /** The closure's state right after `timer.resume()` at line 190. */
    constructor (data: Bytes, name: string, kind: string)
      ensures Valid() && this.data == data && meta == map["name" := name, "type" := kind]
      ensures offset == 0 && sent == [] && armed && outcome == Pending && !rtcClosed
    {
      this.data := data;
      meta := map["name" := name, "type" := kind];
      offset, sent, armed, outcome, rtcClosed := 0, [], true, Pending, false;
    }

    /** `peer.binary` whose setup threw (no prefs yet): rejected at once, no timer, no channel. */
    constructor Failed(data: Bytes, name: string, kind: string)
      ensures Valid() && this.data == data && meta == map["name" := name, "type" := kind]
      ensures offset == 0 && sent == [] && !armed && outcome == Rejected(SetupThrew) && !rtcClosed
    {
      this.data := data;
      meta := map["name" := name, "type" := kind];
      offset, sent, armed, outcome, rtcClosed := 0, [], false, Rejected(SetupThrew), false;
    }

    /**
     * `channel.onopen` and `channel.onmessage` alike, whatever the message:
     * the preamble at offset 0; then the next chunk, restarting the
     * timeout, or, with nothing left, cancel the timeout and resolve.
     * `chunkSize` is `peer.prefs.chunkSize` at the time of the event.
     */
    method OnEvent(chunkSize: nat)
      requires Valid()
      modifies this
      ensures Valid()
      ensures sent == old(sent) + StepFrames(meta, data, old(offset), chunkSize)
      ensures offset == NextOffset(data, old(offset), chunkSize)
      ensures armed == (old(offset) < |data|)
      ensures outcome == if old(offset) < |data| then old(outcome) else Settle(old(outcome), Resolved)
      ensures rtcClosed == old(rtcClosed)
    {
      if offset == 0 {
        sent := sent + [Text(meta)];
      }
      if offset < |data| {
        armed := true;
        var slice := data[offset..Min(offset + chunkSize, |data|)];
        sent := sent + [Data(slice)];
        offset := offset + |slice|;
      } else {
        armed := false;
        outcome := Settle(outcome, Resolved);
      }
    }

    /** The sliding timeout fires: close the RTC object and reject; the cache entry stays. */
    method OnTimeout()
      modifies this
      ensures old(armed) ==> !armed && rtcClosed && outcome == Settle(old(outcome), Rejected(TimedOut))
      ensures !old(armed) ==> armed == old(armed) && rtcClosed == old(rtcClosed) && outcome == old(outcome)
      ensures offset == old(offset) && sent == old(sent)
    {
      if armed {
        armed := false;
        rtcClosed := true;
        outcome := Settle(outcome, Rejected(TimedOut));
      }
    }

    /** `channel.onclose` (also what the `abort` signal leads to): close the RTC object and reject. */
    method OnClose()
      modifies this
      ensures rtcClosed && outcome == Settle(old(outcome), Rejected(ChannelClosed))
      ensures offset == old(offset) && sent == old(sent) && armed == old(armed)
    {
      rtcClosed := true;
      outcome := Settle(outcome, Rejected(ChannelClosed));
    }

    /** `channel.onerror = reject`. */
    method OnError()
      modifies this
      ensures outcome == Settle(old(outcome), Rejected(ChannelError))
      ensures offset == old(offset) && sent == old(sent) && armed == old(armed) && rtcClosed == old(rtcClosed)
    {
      outcome := Settle(outcome, Rejected(ChannelError));
    }
  }

  /** The receiving side (lines 256-286), created on `ondatachannel` for an offer announcing `announced` bytes. */
  class Receiver {
    const announced: Option<int>
    var info: Meta
    var chunks: seq<Bytes>
    var size: nat
    var acks: seq<int>               // what `channel.send` was given
    var closed: bool
    var deliveries: seq<Delivery>    // the `binary` events emitted

    ghost predicate Valid()
      reads this
    {
      size == |Flatten(chunks)|
    }

    constructor (announced: Option<int>)
      ensures Valid() && this.announced == announced
      ensures info == map[] && chunks == [] && size == 0 && acks == [] && !closed && deliveries == []
    {
      this.announced := announced;
      info, chunks, size, acks, closed, deliveries := map[], [], 0, [], false, [];
    }

    /**
     * `channel.onmessage`: a text merges into `info`; binary data is
     * appended and counted, the count is sent back, and when it equals the
     * announced size the channel is closed and the `binary` event emitted.
     */
    method OnMessage(f: Frame)
      requires Valid()
      modifies this
      ensures Valid()
      ensures f.Text? ==>
        info == old(info) + f.fields && chunks == old(chunks) && size == old(size) &&
        acks == old(acks) && closed == old(closed) && deliveries == old(deliveries)
      ensures f.Data? ==>
        info == old(info) && chunks == old(chunks) + [f.bytes] && size == old(size) + |f.bytes| &&
        acks == old(acks) + [size]
      ensures f.Data? && announced == Some(size) ==>
        closed && deliveries == old(deliveries) + [Delivery(info, chunks)]
      ensures f.Data? && announced != Some(size) ==>
        closed == old(closed) && deliveries == old(deliveries)
      ensures announced.Some? && old(size) > announced.value ==> deliveries == old(deliveries)
    {
      match f
      case Text(fields) =>
        info := info + fields;
      case Data(bytes) =>
        FlattenAppend(chunks, [bytes]);
        chunks := chunks + [bytes];
        size := size + |bytes|;
        acks := acks + [size];
        if announced == Some(size) {
          closed := true;
          deliveries := deliveries + [Delivery(info, chunks)];
        }
    }
  }
}
