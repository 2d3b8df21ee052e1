/** Runs of one stream: its producers, the transport's answers, and what every run of any stream keeps. */
module DeliveryRuns {
  import opened Basics
  import opened Delivery

  /** A stream carries one regular response, or one downstream opening followed by stream data. */
  datatype Kind = Regular(response: Item) | Downstream

  /**
   * `asked`: the response or the opening was queued; `interim`: an interim header was queued before it;
   * `sent`: the stream data queued since.
   */
  datatype Sys = Sys(stream: Stream, asked: bool, interim: bool, sent: Bytes)

  datatype Step =
    | Interim
    | Ask
    | Publish(data: Bytes)
    | Read(n: nat)
    | AskReset
    | Resets
    | Flush(ha: HeadAnswer, a: Answer, fa: Answer)
    | Pop(a: Answer, fa: Answer, ha: HeadAnswer)

  const OPENING: Item := Header(OpenStream, false, None)
  const INTERIM: Item := Header(SendHeader100, false, None)
  const START: Sys := Sys(FRESH, false, false, [])

  /** The headers the code builds for a regular response: ending on headers excludes an attached body. */
  predicate WellFormed(kind: Kind) {
    kind.Regular? ==>
      && kind.response.Header? && kind.response.mode != OpenStream && kind.response.mode != SendHeader100
      && (kind.response.isEnd ==> kind.response.attached.None?)
  }

  /** The header that starts the response or the downstream. */
  function Final(kind: Kind): Item {
    if kind.Regular? then kind.response else OPENING
  }

  function Unsent(s: Stream): Bytes {
    if s.partial.Some? && s.partial.value.written <= |s.partial.value.body|
    then s.partial.value.body[s.partial.value.written..] else []
  }

  function NextData(s: Stream): Bytes {
    var next := NextItem(s);
    if next.None? || next.value.0.Header? then [] else next.value.0.data
  }

  /** The parked part is retried only on a stream with headers out and room for 512 bytes. */
  predicate CanFlush(s: Stream, ha: HeadAnswer, a: Answer, fa: Answer) {
    && s.headersSent && s.partial.Some? && s.partial.value.written <= |s.partial.value.body|
    && Honest(s.wire, Unsent(s), true, a) && Honest(s.wire, [], false, fa) && (s.wire.dead ==> !ha.Sent?)
  }

  predicate CanPop(s: Stream, a: Answer, fa: Answer, ha: HeadAnswer) {
    Honest(s.wire, NextData(s), false, a) && Honest(s.wire, [], false, fa) && (s.wire.dead ==> !ha.Sent?)
  }

  function Apply(kind: Kind, x: Sys, step: Step): Sys {
    var s := x.stream;
    match step
    case Interim =>
      // The worker queues it before it signals readiness, and the response is prepared only after that.
      if x.asked || x.interim || s.queue.None? then x else x.(stream := Enqueue(s, INTERIM), interim := true)
    case Ask => if x.asked || s.queue.None? then x else x.(stream := Enqueue(s, Final(kind)), asked := true)
    case Publish(data) =>
      // Data follows the opening: subscribers are registered by the callback the opening precedes.
      if kind.Regular? || !x.asked || s.queue.None? then x
      else x.(stream := Enqueue(s, StreamData(data)), sent := x.sent + data)
    case Read(n) => x.(stream := ReadChunk(s, n))
    case AskReset => x.(stream := RequestReset(s))
    case Resets => x.(stream := Sweep(s))
    case Flush(ha, a, fa) => if CanFlush(s, ha, a, fa) then x.(stream := HandleWritable(s, ha, a, fa)) else x
    case Pop(a, fa, ha) => if CanPop(s, a, fa, ha) then x.(stream := Serve(s, a, fa, ha)) else x
  }

  function Run(kind: Kind, x: Sys, steps: seq<Step>): Sys
    decreases |steps|
  {
    if steps == [] then x else Run(kind, Apply(kind, x, steps[0]), steps[1..])
  }

  lemma {:induction false} RunConcat(kind: Kind, x: Sys, first: seq<Step>, second: seq<Step>)
    ensures Run(kind, x, first + second) == Run(kind, Run(kind, x, first), second)
    decreases |first|
  {
    if first == [] {
      assert first + second == second;
    } else {
      assert (first + second)[1..] == first[1..] + second;
      RunConcat(kind, Apply(kind, x, first[0]), first[1..], second);
    }
  }

  lemma RunOne(kind: Kind, x: Sys, step: Step)
    ensures Run(kind, x, [step]) == Apply(kind, x, step)
  {
    assert [step][1..] == [];
    assert Run(kind, Apply(kind, x, step), []) == Apply(kind, x, step);
  }

  lemma RunTwo(kind: Kind, x: Sys, a: Step, b: Step)
    ensures Run(kind, x, [a, b]) == Apply(kind, Apply(kind, x, a), b)
  {
    assert [a, b][1..] == [b];
    RunOne(kind, Apply(kind, x, a), b);
  }

  // ---------- queued bytes ----------

  function Payload(items: seq<Item>): Bytes {
    if items == [] then []
    else (if items[0].Header? then [] else items[0].data) + Payload(items[1..])
  }

  lemma {:induction false} PayloadSnoc(items: seq<Item>, last: Item)
    ensures Payload(items + [last]) == Payload(items) + (if last.Header? then [] else last.data)
  {
    if items == [] {
      assert items + [last] == [last] && [last][1..] == [];
    } else {
      assert (items + [last])[1..] == items[1..] + [last];
      PayloadSnoc(items[1..], last);
    }
  }

  function Low(s: Stream): Bytes {
    if s.queue.Some? then Payload(s.queue.value.low) else []
  }

  function Rest(s: Stream): Bytes {
    if s.chunking.Some? then s.chunking.value else []
  }

  /** What is parked is part of a chunk, and its headers are out. */
  predicate Parked(s: Stream) {
    s.partial.Some? ==> s.partial.value.written < |s.partial.value.body| && !s.partial.value.headers
  }

  /** A failed end of stream may leave a fully taken chunk parked. */
  predicate ParkedOrTaken(s: Stream) {
    s.partial.Some? ==> s.partial.value.written <= |s.partial.value.body| && !s.partial.value.headers
  }

  /** Taking the first `k` bytes of what is sent moves them, in order, from the parked part to the wire. */
  lemma Taken(accepted: Bytes, data: Bytes, k: nat)
    requires k <= |data|
    ensures accepted + data == (accepted + data[..k]) + data[k..]
  {
    assert data == data[..k] + data[k..];
  }

  lemma Regroup(front: Bytes, middle: Bytes, back: Bytes)
    ensures front + middle + back == front + (middle + back)
  {
  }

  /** The stream once the first item of its low queue was popped. */
  function Popped(s: Stream): Stream
    requires s.queue.Some? && s.queue.value.low != []
  {
    s.(queue := Some(s.queue.value.(low := s.queue.value.low[1..])))
  }

  // ---------- the transport's record ----------

  /** The transport's record only grows, and an end of stream is taken only when it is offered. */
  predicate Grows(w: Wire, v: Wire) {
    && w.accepted <= v.accepted && w.offered <= v.offered && w.openings <= v.openings && w.turns <= v.turns
    && w.fins <= v.fins && v.fins - w.fins <= v.offered - w.offered
    && (w.dead ==> v.dead) && (w.tried ==> v.tried)
  }

  lemma TransmitGrows(w: Wire, data: Bytes, fin: bool, a: Answer)
    ensures Grows(w, Transmit(w, data, fin, a))
  {
  }

  lemma GrowsOn(w: Wire, v: Wire, u: Wire)
    requires Grows(w, v) && Grows(v, u)
    ensures Grows(w, u)
  {
  }

  lemma ResumeGrows(s: Stream, a: Answer, fa: Answer)
    requires s.partial.Some? && s.partial.value.written <= |s.partial.value.body|
    ensures Grows(s.wire, Resume(s, a, fa).wire)
  {
    var data := s.partial.value.body[s.partial.value.written..];
    var w := Transmit(s.wire, data, false, a);
    TransmitGrows(s.wire, data, false, a);
    TransmitGrows(w, [], true, fa);
    GrowsOn(s.wire, w, Transmit(w, [], true, fa));
    assert Resume(s, a, fa).wire in {w, Transmit(w, [], true, fa)};
  }

  lemma WritableGrows(s: Stream, ha: HeadAnswer, a: Answer, fa: Answer)
    requires s.partial.Some? ==> s.partial.value.written <= |s.partial.value.body|
    ensures Grows(s.wire, HandleWritable(s, ha, a, fa).wire)
  {
    if s.partial.Some? {
      if s.partial.value.headers {
        var t := s.(wire := TransmitHeaders(s.wire, SendHeader, false, ha),
                    partial := Some(s.partial.value.(headers := false)));
        ResumeGrows(t, a, fa);
        GrowsOn(s.wire, t.wire, Resume(t, a, fa).wire);
      } else {
        ResumeGrows(s, a, fa);
      }
    }
  }

  lemma BodyGrows(s: Stream, data: Bytes, a: Answer, fa: Answer)
    ensures Grows(s.wire, ServeBody(s, data, a, fa).wire)
  {
    var (start, rest) := if s.headersSent then (s, data) else (s.(partial := Some(Partial(false, data, 0))), []);
    var fin := Written(s.tracker).0 == Written(s.tracker).1;
    var w := Transmit(s.wire, rest, fin, a);
    var t := SendBodyResponse(start, rest, a).0;
    var fin' := Written(t.tracker).0 == Written(t.tracker).1;
    assert t.wire == w;
    TransmitGrows(s.wire, rest, fin, a);
    TransmitGrows(w, [], fin', fa);
    GrowsOn(s.wire, w, Transmit(w, [], fin', fa));
  }

  lemma MessageGrows(s: Stream, data: Bytes, a: Answer)
    ensures Grows(s.wire, ServeStreamData(s, data, a).wire)
    ensures Grows(s.wire, ServeProgression(s, data, a).wire)
  {
    TransmitGrows(s.wire, data, false, a);
    assert SendPart(s, data, false, a).0.wire == Transmit(s.wire, data, false, a);
  }

  lemma HeadersGrow(w: Wire, mode: Mode, end: bool, ha: HeadAnswer)
    ensures Grows(w, TransmitHeaders(w, mode, end, ha))
    ensures Grows(w, TransmitHeaders(w, mode, end, ha).(dead := true))
  {
  }

  /** One header send is all that serving a header does to the transport, but for the reset of a refused opening. */
  lemma HeaderWire(s: Stream, item: Item, ha: HeadAnswer)
    requires item.Header?
    ensures var end := match item.mode {
        case OpenStream => false
        case SendHeader100 => item.isEnd
        case _ => EndsOnHeaders(item)
      };
      var w := TransmitHeaders(s.wire, item.mode, end, ha);
      ServeHeader(s, item, ha).wire == if item.mode == OpenStream && ha.Refused? then w.(dead := true) else w
  {
  }

  lemma HeaderGrows(s: Stream, item: Item, ha: HeadAnswer)
    requires item.Header?
    ensures Grows(s.wire, ServeHeader(s, item, ha).wire)
  {
    var end := match item.mode {
      case OpenStream => false
      case SendHeader100 => item.isEnd
      case _ => EndsOnHeaders(item)
    };
    HeadersGrow(s.wire, item.mode, end, ha);
    HeaderWire(s, item, ha);
  }

  lemma NextItemKeeps(s: Stream)
    requires NextItem(s).Some?
    ensures var t := NextItem(s).value.1; t == s.(pending := t.pending, queue := t.queue)
    ensures s.queue.None? <==> NextItem(s).value.1.queue.None?
    ensures s.queue.Some? ==> NextItem(s).value.1.queue.value.reset == s.queue.value.reset
  {
  }

  lemma PopGrows(s: Stream, a: Answer, fa: Answer, ha: HeadAnswer)
    ensures Grows(s.wire, Serve(s, a, fa, ha).wire)
  {
    var next := NextItem(s);
    if next.Some? {
      NextItemKeeps(s);
      match next.value.0
      case Header(_, _, _) => HeaderGrows(next.value.1, next.value.0, ha);
      case Body(data) => BodyGrows(next.value.1, data, a, fa);
      case StreamData(data) => MessageGrows(next.value.1, data, a);
      case BodyProgression(data) => MessageGrows(next.value.1, data, a);
    }
  }

  lemma StepGrows(kind: Kind, x: Sys, step: Step)
    ensures Grows(x.stream.wire, Apply(kind, x, step).stream.wire)
  {
    match step
    case Flush(ha, a, fa) => if CanFlush(x.stream, ha, a, fa) { WritableGrows(x.stream, ha, a, fa); }
    case Pop(a, fa, ha) => PopGrows(x.stream, a, fa, ha);
    case _ =>
  }

  lemma {:induction false} RunGrows(kind: Kind, x: Sys, steps: seq<Step>)
    ensures Grows(x.stream.wire, Run(kind, x, steps).stream.wire)
    decreases |steps|
  {
    if steps == [] {
    } else {
      StepGrows(kind, x, steps[0]);
      RunGrows(kind, Apply(kind, x, steps[0]), steps[1..]);
    }
  }

  // ---------- before the final header was accepted ----------

  function Ones(b: bool): nat {
    if b then 1 else 0
  }

  /**
   * The headers stand in line: the interim one queued or blocked, then the final one queued; or, with the
   * interim one accepted or absent, the final one queued, or refused once and waiting in front.
   */
  predicate Lined(kind: Kind, x: Sys)
    requires x.stream.queue.Some?
  {
    var (s, want) := (x.stream, if x.asked then [Final(kind)] else []);
    var (high, w) := (s.queue.value.high, s.wire);
    || (s.pending == [] && high == [INTERIM] + want && x.interim && w.interims == w.turns == 0)
    || (s.pending == [INTERIM] && high == want && x.interim && w.interims == w.turns == 0)
    || (s.pending == [] && high == want && w.interims == Ones(x.interim) && w.turns == 0)
    || (x.asked && s.pending == [Final(kind)] && high == [] && w.interims == Ones(x.interim) && w.turns > 0)
  }

  /** Nothing but headers was passed to the transport. */
  predicate OnlyHeaders(s: Stream) {
    && s.partial.None? && s.tracker.None? && s.chunking.None? && !s.headersSent
    && s.wire.accepted == [] && s.wire.fins == s.wire.openings == 0 && !s.wire.tried && !s.wire.dead
  }

  /** The final header had its turn, after the interim one if there was any. */
  predicate HadItsTurn(x: Sys) {
    x.asked && x.stream.wire.turns > 0 && x.stream.wire.interims == Ones(x.interim)
  }

  /** After a reset nothing is queued and nothing more is sent. */
  predicate Gone(s: Stream) {
    s.partial.None? && s.pending == [] && s.queue.None?
  }

  lemma GoneStep(kind: Kind, x: Sys, step: Step)
    requires Gone(x.stream)
    ensures var y := Apply(kind, x, step); Gone(y.stream) && y == x.(stream := x.stream.(chunking := y.stream.chunking))
  {
  }

  lemma {:induction false} NothingAfterGone(kind: Kind, x: Sys, steps: seq<Step>)
    requires Gone(x.stream)
    ensures Gone(Run(kind, x, steps).stream) && Run(kind, x, steps).stream.wire == x.stream.wire
    decreases |steps|
  {
    if steps == [] {
    } else {
      GoneStep(kind, x, steps[0]);
      NothingAfterGone(kind, Apply(kind, x, steps[0]), steps[1..]);
    }
  }
}
