/**
 * Response delivery on one HTTP/3 stream: the chunker feeds a low-priority queue, the network loop pops it,
 * sends what the transport takes, parks the rest as a partial response, retries a blocked stream opening
 * and honours resets. QUIC is replaced by its answers to each call.
 */
module Delivery {
  import opened Basics

  const CHUNK_SIZE: nat := 8192

  datatype Mode = SendHeader | SendHeader100 | SendAdditionalHeader | OpenStream

  datatype Item =
    | Header(mode: Mode, isEnd: bool, attached: Option<Bytes>)
    | Body(data: Bytes)
    | StreamData(data: Bytes)
    | BodyProgression(data: Bytes)

  /** A sent-in-part chunk: `written` of its bytes were taken; `headers` tells whether headers must go first. */
  datatype Partial = Partial(headers: bool, body: Bytes, written: nat)

  /** The transport's answer to one body send: some bytes, none for now, or a final error. */
  datatype Answer = Took(k: nat) | Done | Fatal

  /** The transport's answer to one header send. */
  datatype HeadAnswer = Sent | Blocked | Refused

  /**
   * What the transport did for the stream. `offered` and `fins` count the ends of stream passed to it and
   * those it took; `openings` and `interims` the accepted stream openings and interim headers; `turns` the
   * final headers passed to it, accepted or not; `tried` tells whether body bytes were ever passed.
   */
  datatype Wire = Wire(
    accepted: Bytes, offered: nat, fins: nat, openings: nat, interims: nat, turns: nat, tried: bool, dead: bool)

  /** The stream's entry in the dispatch map; `reset` is the out-of-band request. */
  datatype Queue = Queue(high: seq<Item>, low: seq<Item>, reset: bool)

  datatype Stream = Stream(
    headersSent: bool,
    partial: Option<Partial>,
    tracker: Option<(nat, nat)>,
    pending: seq<Item>,
    queue: Option<Queue>,
    chunking: Option<Bytes>,
    wire: Wire)

  const NO_WIRE: Wire := Wire([], 0, 0, 0, 0, 0, false, false)

  const FRESH: Stream := Stream(false, None, None, [], Some(Queue([], [], false)), None, NO_WIRE)

  /** What the transport promises about one body send of `data`; `roomy` when 512 bytes of capacity are available. */
  predicate Honest(w: Wire, data: Bytes, roomy: bool, a: Answer) {
    && (w.dead ==> a.Fatal?)
    && (a.Took? ==> a.k <= |data|)
    && (roomy && data != [] ==> a.Fatal? || (a.Took? && a.k > 0))
  }

  /** One body send; an end of stream is taken only with the last byte. */
  function Transmit(w: Wire, data: Bytes, fin: bool, a: Answer): Wire {
    var k := if a.Took? && a.k <= |data| then a.k else 0;
    w.(accepted := w.accepted + data[..k],
       offered := w.offered + (if fin then 1 else 0),
       fins := w.fins + (if fin && a.Took? && k == |data| then 1 else 0),
       tried := w.tried || data != [],
       dead := w.dead || a.Fatal?)
  }

  /** One header send; interim headers are not the stream's final ones. */
  function TransmitHeaders(w: Wire, mode: Mode, end: bool, ha: HeadAnswer): Wire {
    w.(offered := w.offered + (if end then 1 else 0),
       fins := w.fins + (if end && ha.Sent? then 1 else 0),
       openings := w.openings + (if mode == OpenStream && ha.Sent? then 1 else 0),
       interims := w.interims + (if mode == SendHeader100 && ha.Sent? then 1 else 0),
       turns := w.turns + (if mode == SendHeader100 then 0 else 1))
  }

  function Count(data: Bytes, a: Answer): nat {
    if a.Took? && a.k <= |data| then a.k else 0
  }

  // ---------- trackers ----------

  function Written(tracker: Option<(nat, nat)>): (nat, nat) {
    if tracker.Some? then tracker.value else (0, 0)
  }

  function AddWritten(tracker: Option<(nat, nat)>, written: nat): Option<(nat, nat)> {
    if tracker.Some? then Some((tracker.value.0 + written, tracker.value.1)) else None
  }

  predicate TotallyWritten(tracker: Option<(nat, nat)>) {
    tracker.Some? && tracker.value.0 == tracker.value.1
  }

  // ---------- sending ----------

  /** One chunk; the end of stream is passed when the tracker already says everything was taken. */
  function SendBodyResponse(s: Stream, data: Bytes, a: Answer): (r: (Stream, bool)) {
    var fin := Written(s.tracker).0 == Written(s.tracker).1;
    SendPart(s, data, fin, a)
  }

  /** Stream data never carries an end of stream. */
  function SendBodyResponseProgression(s: Stream, data: Bytes, a: Answer): (r: (Stream, bool)) {
    SendPart(s, data, false, a)
  }

  function SendPart(s: Stream, data: Bytes, fin: bool, a: Answer): (r: (Stream, bool)) {
    var t := s.(wire := Transmit(s.wire, data, fin, a));
    if a.Fatal? then (t, false)
    else
      var written := Count(data, a);
      (t.(partial := if written < |data| then Some(Partial(false, data, written)) else s.partial,
          tracker := AddWritten(s.tracker, written)), true)
  }

  /** The parked rest of a chunk; `fa` answers the end of stream, if one is passed. */
  function Resume(s: Stream, a: Answer, fa: Answer): Stream
    requires s.partial.Some? && s.partial.value.written <= |s.partial.value.body|
  {
    var p := s.partial.value;
    var amount := Written(s.tracker);
    var data := p.body[p.written..];
    var t := s.(wire := Transmit(s.wire, data, false, a));
    if a.Fatal? then t.(partial := None)
    else
      var written := Count(data, a);
      var taken := p.(written := p.written + written);
      if p.written + written == |p.body| then
        if written + amount.0 == amount.1 then
          var u := t.(wire := Transmit(t.wire, [], true, fa));
          if fa.Fatal? then u.(partial := Some(taken))
          else u.(tracker := AddWritten(s.tracker, written), partial := None)
        else t.(tracker := AddWritten(s.tracker, written), partial := None)
      else if written > 0 then t.(tracker := AddWritten(s.tracker, written), partial := Some(taken))
      else if p.written + amount.0 == amount.1 then
        var u := t.(wire := Transmit(t.wire, [], true, fa));
        if fa.Fatal? then u.(partial := None) else u
      else t
  }

  /** A writable stream: parked headers go first, and the parked bytes only after them. */
  function HandleWritable(s: Stream, ha: HeadAnswer, a: Answer, fa: Answer): Stream
    requires s.partial.Some? ==> s.partial.value.written <= |s.partial.value.body|
  {
    if s.partial.None? then s
    else if !s.partial.value.headers then Resume(s, a, fa)
    else
      var t := s.(wire := TransmitHeaders(s.wire, SendHeader, false, ha));
      if ha.Sent? then Resume(t.(partial := Some(s.partial.value.(headers := false))), a, fa) else t
  }

  /** The stream is shut down and everything queued for it is dropped. */
  function ResetFailed(s: Stream): Stream {
    s.(headersSent := false, partial := None, pending := [], queue := None, wire := s.wire.(dead := true))
  }

  // ---------- serving one queued item ----------

  predicate EndsOnHeaders(item: Item)
    requires item.Header?
  {
    item.isEnd || item.attached == Some([])
  }

  function AttachedBody(item: Item): Option<Bytes>
    requires item.Header?
  {
    if item.attached.Some? && item.attached.value != [] then item.attached else None
  }

  function PushFront(s: Stream, item: Item): Stream {
    s.(pending := [item] + s.pending)
  }

  function ServeHeader(s: Stream, item: Item, ha: HeadAnswer): Stream
    requires item.Header?
  {
    var attached := item.attached;
    match item.mode
    case OpenStream =>
      var t := s.(wire := TransmitHeaders(s.wire, OpenStream, false, ha));
      if ha.Sent? then t.(headersSent := true)
      else if ha.Blocked? then PushFront(t, item) else ResetFailed(t)
    case SendHeader100 =>
      var t := s.(wire := TransmitHeaders(s.wire, SendHeader100, item.isEnd, ha));
      if ha.Sent? then t else PushFront(t, item)
    case _ =>
      var t := s.(wire := TransmitHeaders(s.wire, item.mode, EndsOnHeaders(item), ha));
      if !ha.Sent? then PushFront(t, item)
      else
        var u := if item.mode == SendHeader || attached.Some? then t.(headersSent := true) else t;
        if AttachedBody(item).None? then u
        else u.(tracker := Some((0, |AttachedBody(item).value|)), chunking := AttachedBody(item))
  }

  /** A chunk popped before its headers went out is parked whole, and nothing of it is left to send. */
  function ServeBody(s: Stream, data: Bytes, a: Answer, fa: Answer): Stream {
    var (start, rest) := if s.headersSent then (s, data) else (s.(partial := Some(Partial(false, data, 0))), []);
    var (t, ok) := SendBodyResponse(start, rest, a);
    if !ok then PushFront(t, Body([]))
    else if TotallyWritten(t.tracker) then SendBodyResponse(t, [], fa).0.(pending := [], queue := None)
    else t
  }

  function ServeStreamData(s: Stream, data: Bytes, a: Answer): Stream {
    var (t, ok) := SendBodyResponseProgression(s, data, a);
    if ok then t else PushFront(t, StreamData([]))
  }

  function ServeProgression(s: Stream, data: Bytes, a: Answer): Stream {
    var (t, ok) := SendBodyResponseProgression(s, data, a);
    if ok then t else PushFront(t, BodyProgression([]))
  }

  function ServeItem(s: Stream, item: Item, a: Answer, fa: Answer, ha: HeadAnswer): Stream {
    match item
    case Header(_, _, _) => ServeHeader(s, item, ha)
    case Body(data) => ServeBody(s, data, a, fa)
    case StreamData(data) => ServeStreamData(s, data, a)
    case BodyProgression(data) => ServeProgression(s, data, a)
  }

  /** The item the loop serves next, with the stream it leaves behind. */
  function NextItem(s: Stream): Option<(Item, Stream)> {
    if s.partial.Some? then None
    else if s.pending != [] then
      var front := s.pending[0];
      if front.Header? && front.mode == OpenStream then Some((front, s.(pending := s.pending[1..]))) else None
    else if s.queue.None? then None
    else
      var q := s.queue.value;
      if q.high != [] then Some((q.high[0], s.(queue := Some(q.(high := q.high[1..])))))
      else if q.low != [] then Some((q.low[0], s.(queue := Some(q.(low := q.low[1..])))))
      else None
  }

  function Serve(s: Stream, a: Answer, fa: Answer, ha: HeadAnswer): Stream {
    var next := NextItem(s);
    if next.None? then s else ServeItem(next.value.1, next.value.0, a, fa, ha)
  }

  // ---------- producers ----------

  /** The chunker reads `n` bytes of the body; a queue that is gone loses them. */
  function ReadChunk(s: Stream, n: nat): Stream {
    if s.chunking.None? || n == 0 || n > Min(CHUNK_SIZE, |s.chunking.value|) then s
    else
      var rest := s.chunking.value;
      var t := s.(chunking := if n == |rest| then None else Some(rest[n..]));
      if s.queue.None? then t
      else t.(queue := Some(s.queue.value.(low := s.queue.value.low + [Body(rest[..n])])))
  }

  function Enqueue(s: Stream, item: Item): Stream {
    if s.queue.None? then s
    else
      var q := s.queue.value;
      s.(queue := Some(if item.Header? then q.(high := q.high + [item]) else q.(low := q.low + [item])))
  }

  function RequestReset(s: Stream): Stream {
    if s.queue.None? then s else s.(queue := Some(s.queue.value.(reset := true)))
  }

  function Sweep(s: Stream): Stream {
    if s.queue.Some? && s.queue.value.reset then ResetFailed(s) else s
  }
}
