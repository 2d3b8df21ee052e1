/** What a regular response keeps in every run of its stream. */
module RegularRuns {
  import opened Basics
  import opened Delivery
  import opened DeliveryRuns

  predicate Chunks(items: seq<Item>) {
    forall i | 0 <= i < |items| :: items[i].Body? && items[i].data != []
  }

  lemma PayloadEmpty(items: seq<Item>)
    requires Chunks(items)
    ensures Payload(items) == [] <==> items == []
  {
  }

  // ---------- the phases ----------

  predicate Awaiting(kind: Kind, x: Sys)
    requires kind.Regular? && kind.response.Header?
  {
    var s := x.stream;
    && OnlyHeaders(s) && s.queue.Some? && s.queue.value.low == [] && Lined(kind, x)
    && s.wire.offered <= Ones(s.pending == [kind.response] && EndsOnHeaders(kind.response))
  }

  /** The response had no body: the headers ended it, or nothing else will. */
  predicate HeadersOnly(kind: Kind, s: Stream)
    requires kind.Regular? && kind.response.Header?
  {
    && AttachedBody(kind.response).None?
    && s.partial.None? && s.tracker.None? && s.chunking.None? && s.pending == []
    && s.queue.Some? && s.queue.value.high == s.queue.value.low == []
    && s.wire.accepted == [] && !s.wire.tried && !s.wire.dead
    && s.wire.offered == s.wire.fins == Ones(EndsOnHeaders(kind.response))
  }

  /** The body is on its way: every byte is in exactly one place, in order. */
  predicate Sending(body: Bytes, s: Stream) {
    && body != [] && s.headersSent && !s.wire.dead && s.pending == []
    && s.queue.Some? && s.queue.value.high == [] && Chunks(s.queue.value.low)
    && Parked(s) && (s.chunking.Some? ==> s.chunking.value != [])
    && s.wire.accepted + Unsent(s) + Payload(s.queue.value.low) + Rest(s) == body
    && s.tracker == Some((|s.wire.accepted|, |body|))
    && s.wire.offered == (if |s.wire.accepted| == |body| then 1 else 0)
    && s.wire.fins <= s.wire.offered
  }

  /** The transport failed for good: what it took is a prefix, and no more is taken. */
  predicate Broken(body: Bytes, s: Stream) {
    && body != [] && s.headersSent && s.wire.dead && s.queue.Some? && s.queue.value.high == []
    && Chunks(s.queue.value.low) && (s.chunking.Some? ==> s.chunking.value != [])
    && (s.pending == [] || s.pending[0].Body?)
    && s.wire.accepted <= body && s.wire.fins <= s.wire.offered <= 1
    && s.tracker.Some? && s.tracker.value.1 == |body|
    && (if s.wire.offered == 0 then s.tracker.value.0 < |body|
        else s.wire.accepted == body && s.queue.value.low == [] && s.chunking.None?)
    && ParkedOrTaken(s)
  }

  /** Every byte was taken and one end of stream passed; nothing is left. */
  predicate Delivered(body: Bytes, s: Stream) {
    && s.wire.accepted == body && s.wire.fins <= s.wire.offered == 1
    && s.tracker == Some((|body|, |body|))
    && s.partial.None? && s.pending == [] && s.queue.None? && s.chunking.None?
  }

  predicate Underway(kind: Kind, s: Stream)
    requires kind.Regular? && kind.response.Header?
  {
    var body := AttachedBody(kind.response);
    || HeadersOnly(kind, s)
    || (body.Some? && (Sending(body.value, s) || Broken(body.value, s) || Delivered(body.value, s)))
  }

  /** The response has an end: on its headers, or after a body. */
  predicate CarriesEnd(kind: Kind)
    requires kind.Regular? && kind.response.Header?
  {
    kind.response.isEnd || kind.response.attached.Some?
  }

  predicate AfterReset(kind: Kind, x: Sys)
    requires kind.Regular? && kind.response.Header?
  {
    var (s, body) := (x.stream, AttachedBody(kind.response));
    && Gone(s) && (s.wire.offered > 0 ==> CarriesEnd(kind)) && s.wire.dead && s.wire.fins <= s.wire.offered <= 1
    && (s.wire.turns > 0 ==> HadItsTurn(x))
    && (if body.Some? then s.wire.accepted <= body.value && (s.wire.offered > 0 ==> s.wire.accepted == body.value)
        else s.wire.accepted == [] && !s.wire.tried && s.chunking.None? && s.tracker.None?)
  }

  predicate RegularInv(kind: Kind, x: Sys)
    requires kind.Regular? && kind.response.Header?
  {
    Awaiting(kind, x) || (HadItsTurn(x) && Underway(kind, x.stream)) || AfterReset(kind, x)
  }

  // ---------- the body on its way ----------

  /** A byte read leaves the unread rest for the queue; the order stays. */
  lemma ReadMoves(s: Stream, n: nat)
    requires s.queue.Some?
    ensures var t := ReadChunk(s, n); Low(t) + Rest(t) == Low(s) + Rest(s)
  {
    var t := ReadChunk(s, n);
    if t != s {
      var rest := s.chunking.value;
      PayloadSnoc(s.queue.value.low, Body(rest[..n]));
      assert rest == rest[..n] + Rest(t);
      assert Low(t) + Rest(t) == Low(s) + (rest[..n] + Rest(t));
    }
  }

  lemma ReadKeepsSending(body: Bytes, s: Stream, n: nat)
    requires Sending(body, s)
    ensures Sending(body, ReadChunk(s, n))
  {
    var t := ReadChunk(s, n);
    ReadMoves(s, n);
    Regroup(s.wire.accepted + Unsent(s), Low(s), Rest(s));
    Regroup(s.wire.accepted + Unsent(s), Low(t), Rest(t));
  }

  lemma FlushFails(body: Bytes, s: Stream, fa: Answer)
    requires Sending(body, s) && s.partial.Some?
    ensures Broken(body, Resume(s, Fatal, fa))
  {
  }

  lemma FlushAdvances(body: Bytes, s: Stream, k: nat, fa: Answer)
    requires Sending(body, s) && s.partial.Some? && 0 < k < |Unsent(s)|
    ensures Sending(body, Resume(s, Took(k), fa))
  {
    var t := Resume(s, Took(k), fa);
    var data := Unsent(s);
    Taken(s.wire.accepted, data, k);
    assert Unsent(t) == data[k..];
    assert t.wire.accepted == s.wire.accepted + data[..k];
  }

  lemma FlushCompletes(body: Bytes, s: Stream, fa: Answer)
    requires Sending(body, s) && s.partial.Some?
    ensures var t := Resume(s, Took(|Unsent(s)|), fa); Sending(body, t) || Broken(body, t)
  {
    var data := Unsent(s);
    assert data[..|data|] == data;
    var t := Resume(s, Took(|data|), fa);
    assert t.wire.accepted == s.wire.accepted + data;
    assert t.queue == s.queue && t.chunking == s.chunking;
    if |t.wire.accepted| == |body| {
      assert Payload(s.queue.value.low) == [];
      PayloadEmpty(s.queue.value.low);
    }
  }

  lemma FlushSending(body: Bytes, s: Stream, ha: HeadAnswer, a: Answer, fa: Answer)
    requires Sending(body, s) && CanFlush(s, ha, a, fa)
    ensures var t := HandleWritable(s, ha, a, fa); Sending(body, t) || Broken(body, t)
  {
    if a.Fatal? {
      FlushFails(body, s, fa);
    } else if a.k < |Unsent(s)| {
      FlushAdvances(body, s, a.k, fa);
    } else {
      FlushCompletes(body, s, fa);
    }
  }

  lemma PopsChunk(body: Bytes, s: Stream)
    requires Sending(body, s) && s.partial.None? && s.queue.value.low != []
    ensures NextItem(s) == Some((s.queue.value.low[0], Popped(s)))
    ensures var data := s.queue.value.low[0].data;
      && NextData(s) == data && data != [] && |s.wire.accepted| < |body|
      && s.wire.accepted + data + Payload(Popped(s).queue.value.low) + Rest(s) == body
  {
    var data := s.queue.value.low[0].data;
    assert Payload(s.queue.value.low) == data + Payload(s.queue.value.low[1..]);
    Regroup(s.wire.accepted, data, Payload(s.queue.value.low[1..]));
    assert s.wire.accepted + Unsent(s) == s.wire.accepted;
  }

  lemma ChunkFails(body: Bytes, s: Stream, fa: Answer)
    requires Sending(body, s) && s.partial.None? && s.queue.value.low != []
    ensures Broken(body, ServeBody(Popped(s), s.queue.value.low[0].data, Fatal, fa))
  {
    PopsChunk(body, s);
    var data := s.queue.value.low[0].data;
    assert data[..0] == [];
  }

  lemma ChunkParked(body: Bytes, s: Stream, a: Answer, fa: Answer)
    requires Sending(body, s) && s.partial.None? && s.queue.value.low != [] && !a.Fatal?
    requires Count(s.queue.value.low[0].data, a) < |s.queue.value.low[0].data|
    ensures Sending(body, ServeBody(Popped(s), s.queue.value.low[0].data, a, fa))
  {
    PopsChunk(body, s);
    var data := s.queue.value.low[0].data;
    var k := Count(data, a);
    var t := ServeBody(Popped(s), data, a, fa);
    Taken(s.wire.accepted, data, k);
    assert t.wire.accepted == s.wire.accepted + data[..k];
    assert Unsent(t) == data[k..];
  }

  lemma ChunkSent(body: Bytes, s: Stream, fa: Answer)
    requires Sending(body, s) && s.partial.None? && s.queue.value.low != []
    ensures var data := s.queue.value.low[0].data;
      var t := ServeBody(Popped(s), data, Took(|data|), fa);
      Sending(body, t) || Delivered(body, t)
  {
    PopsChunk(body, s);
    var data := s.queue.value.low[0].data;
    assert data[..|data|] == data;
    var t := ServeBody(Popped(s), data, Took(|data|), fa);
    assert t.wire.accepted == s.wire.accepted + data + [];
    if |t.wire.accepted| == |body| {
      PayloadEmpty(Popped(s).queue.value.low);
      assert s.chunking.None?;
    }
  }

  lemma PopSending(body: Bytes, s: Stream, a: Answer, fa: Answer, ha: HeadAnswer)
    requires Sending(body, s) && CanPop(s, a, fa, ha)
    ensures var t := Serve(s, a, fa, ha); Sending(body, t) || Broken(body, t) || Delivered(body, t)
  {
    if s.partial.None? && s.queue.value.low != [] {
      PopsChunk(body, s);
      var data := s.queue.value.low[0].data;
      assert Serve(s, a, fa, ha) == ServeBody(Popped(s), data, a, fa);
      if a.Fatal? {
        ChunkFails(body, s, fa);
      } else if Count(data, a) < |data| {
        ChunkParked(body, s, a, fa);
      } else {
        ChunkSent(body, s, fa);
      }
    } else {
      assert Serve(s, a, fa, ha) == s;
    }
  }

  lemma BrokenRead(body: Bytes, s: Stream, n: nat)
    requires Broken(body, s)
    ensures Broken(body, ReadChunk(s, n))
  {
  }

  lemma BrokenFlush(body: Bytes, s: Stream, ha: HeadAnswer, a: Answer, fa: Answer)
    requires Broken(body, s) && CanFlush(s, ha, a, fa)
    ensures Broken(body, HandleWritable(s, ha, a, fa))
  {
  }

  lemma BrokenPop(body: Bytes, s: Stream, a: Answer, fa: Answer, ha: HeadAnswer)
    requires Broken(body, s) && CanPop(s, a, fa, ha)
    ensures Broken(body, Serve(s, a, fa, ha))
  {
    if NextItem(s).Some? {
      assert s.queue.value.low != [];
      assert s.queue.value.low[0].data[..0] == [];
    }
  }

  // ---------- one step in every phase ----------

  lemma BodyStep(kind: Kind, x: Sys, step: Step)
    requires kind.Regular? && WellFormed(kind) && AttachedBody(kind.response).Some? && x.asked
    requires !step.AskReset? && !step.Resets?
    requires var body := AttachedBody(kind.response).value; Sending(body, x.stream) || Broken(body, x.stream)
    ensures Underway(kind, Apply(kind, x, step).stream)
  {
    var (body, s) := (AttachedBody(kind.response).value, x.stream);
    match step
    case Read(n) => if Sending(body, s) { ReadKeepsSending(body, s, n); } else { BrokenRead(body, s, n); }
    case Flush(ha, a, fa) =>
      if CanFlush(s, ha, a, fa) {
        if Sending(body, s) { FlushSending(body, s, ha, a, fa); } else { BrokenFlush(body, s, ha, a, fa); }
      }
    case Pop(a, fa, ha) =>
      if CanPop(s, a, fa, ha) {
        if Sending(body, s) { PopSending(body, s, a, fa, ha); } else { BrokenPop(body, s, a, fa, ha); }
      }
    case _ =>
  }

  lemma QuietStep(kind: Kind, x: Sys, step: Step)
    requires kind.Regular? && WellFormed(kind) && x.asked && !step.AskReset? && !step.Resets?
    requires HeadersOnly(kind, x.stream) || Gone(x.stream)
    ensures Apply(kind, x, step).stream == x.stream.(chunking := Apply(kind, x, step).stream.chunking)
    ensures x.stream.chunking.None? ==> Apply(kind, x, step) == x
  {
  }

  lemma UnderwayStep(kind: Kind, x: Sys, step: Step)
    requires kind.Regular? && WellFormed(kind) && x.asked && !step.AskReset? && !step.Resets?
    requires Underway(kind, x.stream)
    ensures Underway(kind, Apply(kind, x, step).stream)
  {
    if HeadersOnly(kind, x.stream) {
      QuietStep(kind, x, step);
    } else if Delivered(AttachedBody(kind.response).value, x.stream) {
      QuietStep(kind, x, step);
    } else {
      BodyStep(kind, x, step);
    }
  }

  /** Once the final header had its turn, neither the turn nor the interim header's acceptance changes. */
  lemma TurnStays(kind: Kind, x: Sys, step: Step)
    requires kind.Regular? && WellFormed(kind) && HadItsTurn(x) && Underway(kind, x.stream)
    ensures HadItsTurn(Apply(kind, x, step))
  {
    StepGrows(kind, x, step);
    InterimsStay(kind, x, step);
  }

  lemma InterimsStay(kind: Kind, x: Sys, step: Step)
    requires kind.Regular? && WellFormed(kind) && x.asked && Underway(kind, x.stream)
    ensures var y := Apply(kind, x, step);
      y.asked && y.interim == x.interim && y.stream.wire.interims == x.stream.wire.interims
  {
    match step
    case Pop(a, fa, ha) =>
      var next := NextItem(x.stream);
      if next.Some? {
        NextItemKeeps(x.stream);
        assert next.value.0.Body?;
      }
    case _ =>
  }

  lemma ServedInterim(kind: Kind, x: Sys, a: Answer, fa: Answer, ha: HeadAnswer)
    requires kind.Regular? && WellFormed(kind) && Awaiting(kind, x) && CanPop(x.stream, a, fa, ha)
    requires x.stream.pending == [] && x.stream.queue.value.high != [] && x.stream.queue.value.high[0] == INTERIM
    ensures Awaiting(kind, Apply(kind, x, Pop(a, fa, ha)))
  {
    var t := Serve(x.stream, a, fa, ha);
    assert x.stream.queue.value.high == [INTERIM] + (if x.asked then [Final(kind)] else []);
    assert t.queue.value.high == if x.asked then [Final(kind)] else [];
  }

  /** The stream once its only queued header was popped. */
  function Emptied(s: Stream): Stream
    requires s.queue.Some?
  {
    s.(queue := Some(s.queue.value.(high := [])))
  }

  predicate ResponseIsNext(kind: Kind, x: Sys)
    requires kind.Regular? && kind.response.Header?
  {
    && x.asked && Awaiting(kind, x) && x.stream.pending == [] && x.stream.queue.value.high == [kind.response]
    && x.stream.wire.interims == Ones(x.interim) && x.stream.wire.turns == 0
  }

  lemma ResponsePopped(kind: Kind, x: Sys)
    requires kind.Regular? && WellFormed(kind) && Awaiting(kind, x)
    requires x.asked && x.stream.pending == [] && x.stream.queue.value.high == [kind.response]
    ensures NextItem(x.stream) == Some((kind.response, Emptied(x.stream))) && ResponseIsNext(kind, x)
  {
    assert kind.response != INTERIM && x.stream.queue.value.high != [INTERIM] + [kind.response];
    assert [kind.response][1..] == [];
  }

  /** The headers were just accepted: the body is all ahead, or there is none. */
  predicate Begun(kind: Kind, s: Stream)
    requires kind.Regular? && kind.response.Header?
  {
    var body := AttachedBody(kind.response);
    HeadersOnly(kind, s) || (body.Some? && Sending(body.value, s) && s.wire.offered == 0)
  }

  /** The accepted headers of a response: its body starts, or it was all there is. */
  lemma ResponseSent(kind: Kind, x: Sys)
    requires kind.Regular? && WellFormed(kind) && ResponseIsNext(kind, x)
    ensures var t := ServeHeader(Emptied(x.stream), kind.response, Sent);
      Begun(kind, t) && t.wire.turns == 1 && t.wire.interims == Ones(x.interim)
  {
    var t := ServeHeader(Emptied(x.stream), kind.response, Sent);
    var body := AttachedBody(kind.response);
    if body.Some? {
      assert Sending(body.value, t);
    } else {
      assert HeadersOnly(kind, t);
    }
  }

  lemma ResponseNotSent(kind: Kind, x: Sys, ha: HeadAnswer)
    requires kind.Regular? && WellFormed(kind) && ResponseIsNext(kind, x) && !ha.Sent?
    ensures Awaiting(kind, x.(stream := ServeHeader(Emptied(x.stream), kind.response, ha)))
  {
    assert [kind.response] + [] == [kind.response];
  }

  lemma ServedResponse(kind: Kind, x: Sys, a: Answer, fa: Answer, ha: HeadAnswer)
    requires kind.Regular? && WellFormed(kind) && Awaiting(kind, x) && CanPop(x.stream, a, fa, ha)
    requires x.asked && x.stream.pending == [] && x.stream.queue.value.high == [kind.response]
    ensures var y := Apply(kind, x, Pop(a, fa, ha));
      if ha.Sent? then HadItsTurn(y) && Begun(kind, y.stream) else Awaiting(kind, y)
  {
    ResponsePopped(kind, x);
    assert Apply(kind, x, Pop(a, fa, ha)) == x.(stream := ServeHeader(Emptied(x.stream), kind.response, ha));
    if ha.Sent? { ResponseSent(kind, x); } else { ResponseNotSent(kind, x, ha); }
  }

  lemma AwaitingPop(kind: Kind, x: Sys, a: Answer, fa: Answer, ha: HeadAnswer)
    requires kind.Regular? && WellFormed(kind) && Awaiting(kind, x) && CanPop(x.stream, a, fa, ha)
    ensures RegularInv(kind, Apply(kind, x, Pop(a, fa, ha)))
  {
    var high := x.stream.queue.value.high;
    if x.stream.pending == [] && high != [] {
      if high[0] == INTERIM {
        ServedInterim(kind, x, a, fa, ha);
      } else {
        ServedResponse(kind, x, a, fa, ha);
      }
    } else {
      assert NextItem(x.stream).None?;
    }
  }

  lemma AwaitingStep(kind: Kind, x: Sys, step: Step)
    requires kind.Regular? && WellFormed(kind) && Awaiting(kind, x) && !step.AskReset? && !step.Resets?
    ensures RegularInv(kind, Apply(kind, x, step))
  {
    match step
    case Pop(a, fa, ha) => if CanPop(x.stream, a, fa, ha) { AwaitingPop(kind, x, a, fa, ha); }
    case Interim => assert [] + [INTERIM] == [INTERIM] + [];
    case Ask =>
      assert [] + [Final(kind)] == [Final(kind)];
      assert [INTERIM] + [] + [Final(kind)] == [INTERIM] + [Final(kind)];
    case _ =>
  }

  lemma AskResetKeeps(kind: Kind, x: Sys)
    requires kind.Regular? && WellFormed(kind) && RegularInv(kind, x)
    ensures RegularInv(kind, Apply(kind, x, AskReset))
  {
  }

  lemma SweepKeeps(kind: Kind, x: Sys)
    requires kind.Regular? && WellFormed(kind) && RegularInv(kind, x)
    ensures RegularInv(kind, Apply(kind, x, Resets))
  {
  }

  lemma RegularStep(kind: Kind, x: Sys, step: Step)
    requires kind.Regular? && WellFormed(kind) && RegularInv(kind, x)
    ensures RegularInv(kind, Apply(kind, x, step))
  {
    if step.AskReset? {
      AskResetKeeps(kind, x);
    } else if step.Resets? {
      SweepKeeps(kind, x);
    } else if Awaiting(kind, x) {
      AwaitingStep(kind, x, step);
    } else if HadItsTurn(x) && Underway(kind, x.stream) {
      UnderwayStep(kind, x, step);
      TurnStays(kind, x, step);
    } else {
      GoneStep(kind, x, step);
    }
  }

  lemma {:induction false} RegularRun(kind: Kind, x: Sys, steps: seq<Step>)
    requires kind.Regular? && WellFormed(kind) && RegularInv(kind, x)
    ensures RegularInv(kind, Run(kind, x, steps))
    decreases |steps|
  {
    if steps == [] {
    } else {
      RegularStep(kind, x, steps[0]);
      RegularRun(kind, Apply(kind, x, steps[0]), steps[1..]);
    }
  }

  lemma Reachable(kind: Kind, steps: seq<Step>)
    requires kind.Regular? && WellFormed(kind)
    ensures RegularInv(kind, Run(kind, START, steps))
  {
    assert Awaiting(kind, START);
    RegularRun(kind, START, steps);
  }

  // ---------- conservation ----------

  /**
   * Conservation: until the transport fails or the stream is reset, the bytes taken, the parked rest, the
   * queued chunks and the unread body are, in this order, the response body, and the tracker tells exactly
   * how much of it was taken.
   */
  lemma ResponseIsConserved(kind: Kind, steps: seq<Step>)
    requires WellFormed(kind) && kind.Regular?
    ensures var s := Run(kind, START, steps).stream;
      !s.wire.dead && s.tracker.Some? ==>
        && kind.response.attached.Some?
        && s.wire.accepted + Unsent(s) + Low(s) + Rest(s) == kind.response.attached.value
        && s.tracker.value == (|s.wire.accepted|, |kind.response.attached.value|)
  {
    Reachable(kind, steps);
  }

  /**
   * At every moment, failures and resets included, the transport took a prefix of the body, was passed at
   * most one end of stream, and was passed it only when it had taken every byte.
   */
  lemma ResponseIsAPrefixEndedOnce(kind: Kind, steps: seq<Step>)
    requires WellFormed(kind) && kind.Regular?
    ensures var (w, body) := (Run(kind, START, steps).stream.wire, kind.response.attached);
      && w.fins <= w.offered <= 1
      && (body.Some? ==> w.accepted <= body.value && (w.offered > 0 ==> w.accepted == body.value))
      && (body.None? ==> w.accepted == [])
  {
    Reachable(kind, steps);
  }

  /** Served headers that end the response hand a body over only if they were built both ways. */
  lemma EndedYetChunkedExactly(s: Stream, item: Item)
    requires item.Header? && item.mode != OpenStream && item.mode != SendHeader100 && s.chunking.None?
    ensures EndsOnHeaders(item) && ServeHeader(s, item, Sent).chunking.Some? <==> item.isEnd && AttachedBody(item).Some?
  {
  }

  /** A response that ends on its headers never reaches the chunker. */
  lemma EndedResponseIsNeverChunked(kind: Kind, steps: seq<Step>)
    requires WellFormed(kind) && kind.Regular? && (kind.response.isEnd || kind.response.attached == Some([]))
    ensures var s := Run(kind, START, steps).stream;
      s.chunking.None? && s.tracker.None? && Low(s) == [] && !s.wire.tried
  {
    EndedYetChunkedExactly(FRESH, kind.response);
    Reachable(kind, steps);
  }

  // ---------- the one end of stream ----------

  /** The transport's answer to the end of stream that a step passes. */
  predicate EndAccepted(s: Stream, step: Step) {
    match step
    case Flush(_, _, fa) => fa.Took?
    case Pop(_, fa, ha) => if NextItem(s).Some? && NextItem(s).value.0.Header? then ha.Sent? else fa.Took?
    case _ => false
  }

  lemma HeaderOffers(kind: Kind, x: Sys, a: Answer, fa: Answer, ha: HeadAnswer)
    requires kind.Regular? && WellFormed(kind) && Awaiting(kind, x) && CanPop(x.stream, a, fa, ha)
    requires x.stream.wire.offered == 0
    ensures var w := Serve(x.stream, a, fa, ha).wire;
      w.offered == 1 ==> (w.fins == 1 <==> EndAccepted(x.stream, Pop(a, fa, ha)))
  {
    var next := NextItem(x.stream);
    if next.Some? {
      NextItemKeeps(x.stream);
      assert next.value.0.Header?;
      HeaderWire(next.value.1, next.value.0, ha);
    }
  }

  lemma FlushOffers(body: Bytes, s: Stream, ha: HeadAnswer, a: Answer, fa: Answer)
    requires Sending(body, s) && CanFlush(s, ha, a, fa) && s.wire.offered == 0
    ensures var w := HandleWritable(s, ha, a, fa).wire; w.offered == 1 ==> (w.fins == 1 <==> fa.Took?)
  {
  }

  lemma ChunkOffers(body: Bytes, s: Stream, a: Answer, fa: Answer, ha: HeadAnswer)
    requires Sending(body, s) && CanPop(s, a, fa, ha) && s.wire.offered == 0
    ensures var w := Serve(s, a, fa, ha).wire;
      w.offered == 1 ==> (w.fins == 1 <==> EndAccepted(s, Pop(a, fa, ha)))
  {
    if s.partial.None? && s.queue.value.low != [] {
      PopsChunk(body, s);
    }
  }

  lemma BrokenOffersNothing(body: Bytes, s: Stream, a: Answer, fa: Answer, ha: HeadAnswer)
    requires Broken(body, s) && s.wire.offered == 0
    ensures CanFlush(s, ha, a, fa) ==> HandleWritable(s, ha, a, fa).wire.offered == 0
    ensures CanPop(s, a, fa, ha) ==> Serve(s, a, fa, ha).wire.offered == 0
  {
    if CanPop(s, a, fa, ha) && NextItem(s).Some? {
      assert s.queue.value.low != [];
    }
  }

  /** The step that offers the end decides it: it is taken at once or not at all. */
  lemma OfferStep(kind: Kind, x: Sys, step: Step)
    requires kind.Regular? && WellFormed(kind) && RegularInv(kind, x)
    requires x.stream.wire.offered == 0 && Apply(kind, x, step).stream.wire.offered == 1
    ensures Apply(kind, x, step).stream.wire.fins == 1 <==> EndAccepted(x.stream, step)
  {
    var s := x.stream;
    if Awaiting(kind, x) {
      match step
      case Pop(a, fa, ha) => HeaderOffers(kind, x, a, fa, ha);
      case _ =>
    } else if AfterReset(kind, x) {
      GoneStep(kind, x, step);
    } else if HeadersOnly(kind, s) {
      if !step.AskReset? && !step.Resets? {
        QuietStep(kind, x, step);
      }
    } else {
      var body := AttachedBody(kind.response).value;
      match step
      case Flush(ha, a, fa) =>
        if Sending(body, s) { FlushOffers(body, s, ha, a, fa); } else { BrokenOffersNothing(body, s, a, fa, ha); }
      case Pop(a, fa, ha) =>
        if Sending(body, s) { ChunkOffers(body, s, a, fa, ha); } else { BrokenOffersNothing(body, s, a, fa, ha); }
      case _ =>
    }
  }

  /** The single offer is final: however the run continues, no end is passed again and its fate does not change. */
  lemma EndIsOfferedOnce(kind: Kind, steps: seq<Step>, more: seq<Step>)
    requires WellFormed(kind) && kind.Regular?
    requires Run(kind, START, steps).stream.wire.offered == 1
    ensures var (w, v) := (Run(kind, START, steps).stream.wire, Run(kind, START, steps + more).stream.wire);
      v.offered == 1 && v.fins == w.fins && v.accepted == w.accepted
  {
    var x := Run(kind, START, steps);
    RunConcat(kind, START, steps, more);
    RunGrows(kind, x, more);
    ResponseIsAPrefixEndedOnce(kind, steps);
    ResponseIsAPrefixEndedOnce(kind, steps + more);
  }

  /**
   * "The end of stream is eventually taken" holds exactly when the transport takes it at its single offer:
   * the answer to that one call decides it for every continuation.
   */
  lemma EndIsTakenExactly(kind: Kind, steps: seq<Step>, step: Step, more: seq<Step>)
    requires WellFormed(kind) && kind.Regular?
    requires Run(kind, START, steps).stream.wire.offered == 0
    requires Run(kind, START, steps + [step]).stream.wire.offered == 1
    ensures Run(kind, START, steps + [step] + more).stream.wire.fins == 1
      <==> EndAccepted(Run(kind, START, steps).stream, step)
  {
    var x := Run(kind, START, steps);
    Reachable(kind, steps);
    RunConcat(kind, START, steps, [step]);
    RunOne(kind, x, step);
    OfferStep(kind, x, step);
    EndIsOfferedOnce(kind, steps + [step], more);
  }

  /** The plainest response: headers, then one body. */
  function Plain(body: Bytes): Kind {
    Regular(Header(SendHeader, false, Some(body)))
  }

  /** The plain response with its headers out and its whole body in one queued chunk. */
  function Chunked(body: Bytes): Stream {
    FRESH.(headersSent := true, tracker := Some((0, |body|)), queue := Some(Queue([], [Body(body)], false)),
           wire := NO_WIRE.(turns := 1))
  }

  lemma HeadersAccepted(body: Bytes)
    requires body != []
    ensures Run(Plain(body), START, [Ask, Pop(Done, Done, Sent)]).stream
      == FRESH.(headersSent := true, tracker := Some((0, |body|)), chunking := Some(body), wire := NO_WIRE.(turns := 1))
  {
    RunTwo(Plain(body), START, Ask, Pop(Done, Done, Sent));
    assert [] + [Final(Plain(body))] == [Final(Plain(body))] && [Final(Plain(body))][1..] == [];
    assert [Plain(body).response] + [] == [Plain(body).response];
    assert Apply(Plain(body), START, Ask).stream.queue == Some(Queue([Final(Plain(body))], [], false));
  }

  lemma ChunkQueued(body: Bytes)
    requires 0 < |body| <= CHUNK_SIZE
    ensures Run(Plain(body), START, [Ask, Pop(Done, Done, Sent)] + [Read(|body|)]).stream == Chunked(body)
  {
    var x := Run(Plain(body), START, [Ask, Pop(Done, Done, Sent)]);
    HeadersAccepted(body);
    RunConcat(Plain(body), START, [Ask, Pop(Done, Done, Sent)], [Read(|body|)]);
    RunOne(Plain(body), x, Read(|body|));
    assert body[..|body|] == body && [] + [Body(body)] == [Body(body)];
  }

  lemma AllButTheEndTaken(body: Bytes)
    requires body != []
    ensures var w := Serve(Chunked(body), Took(|body|), Done, Sent).wire;
      w.offered == 1 && w.fins == 0 && w.accepted == body
  {
    assert body[..|body|] == body && [] + body == body && body + [] == body;
    var s := Chunked(body).(queue := Some(Queue([], [], false)));
    assert [Body(body)][1..] == [];
    assert NextItem(Chunked(body)) == Some((Body(body), s));
  }

  /** The failing case, reached for every body of one chunk: all its bytes are taken, its end of stream is not. */
  lemma RefusedEndExample(body: Bytes)
    requires 0 < |body| <= CHUNK_SIZE
    ensures var steps := [Ask, Pop(Done, Done, Sent)] + [Read(|body|)] + [Pop(Took(|body|), Done, Sent)];
      var w := Run(Plain(body), START, steps).stream.wire;
      WellFormed(Plain(body)) && w.offered == 1 && w.fins == 0 && w.accepted == body
  {
    var (first, last) := ([Ask, Pop(Done, Done, Sent)] + [Read(|body|)], Pop(Took(|body|), Done, Sent));
    ChunkQueued(body);
    RunConcat(Plain(body), START, first, [last]);
    RunOne(Plain(body), Run(Plain(body), START, first), last);
    AllButTheEndTaken(body);
  }

  // ---------- blocked headers ----------

  /** A header the transport blocks on an otherwise idle stream is served again exactly when it opens a stream. */
  lemma BlockedHeaderIsRetriedExactly(s: Stream, item: Item)
    requires item.Header? && s.partial.None? && s.pending == []
    ensures var t := ServeHeader(s, item, Blocked);
      && t.pending == [item]
      && (NextItem(t).Some? && NextItem(t).value.0 == item <==> item.mode == OpenStream)
      && (NextItem(t).Some? <==> item.mode == OpenStream)
  {
  }

  /** A header that waits in front, interim or final, stops everything but a reset. */
  lemma BlockedStep(kind: Kind, x: Sys, step: Step)
    requires WellFormed(kind) && kind.Regular? && Awaiting(kind, x) && x.stream.pending != []
    ensures var y := Apply(kind, x, step);
      if Gone(y.stream) then y.stream.wire == x.stream.wire.(dead := true)
      else Awaiting(kind, y) && y.stream.pending == x.stream.pending && y.stream.wire == x.stream.wire
  {
    assert NextItem(x.stream).None?;
    if step.Ask? && !x.asked {
      assert [] + [Final(kind)] == [Final(kind)];
    }
  }

  lemma {:induction false} BlockedRun(kind: Kind, x: Sys, steps: seq<Step>)
    requires WellFormed(kind) && kind.Regular? && Awaiting(kind, x) && x.stream.pending != []
    ensures var y := Run(kind, x, steps);
      if Gone(y.stream) then y.stream.wire == x.stream.wire.(dead := true)
      else y.stream.pending == x.stream.pending && y.stream.wire == x.stream.wire
    decreases |steps|
  {
    if steps == [] {
    } else {
      var y := Apply(kind, x, steps[0]);
      BlockedStep(kind, x, steps[0]);
      if Gone(y.stream) {
        NothingAfterGone(kind, y, steps[1..]);
      } else {
        BlockedRun(kind, y, steps[1..]);
      }
    }
  }

  /**
   * Unlike a stream opening, response headers the transport did not accept are never tried again: they stay
   * in front of the stream, nothing passes them, and only a reset removes them.
   */
  lemma BlockedResponseIsNeverRetried(kind: Kind, steps: seq<Step>, more: seq<Step>)
    requires WellFormed(kind) && kind.Regular? && Run(kind, START, steps).stream.pending == [kind.response]
    ensures var (x, y) := (Run(kind, START, steps), Run(kind, START, steps + more));
      Gone(y.stream) || (y.stream.pending == [kind.response] && y.stream.wire == x.stream.wire)
  {
    Reachable(kind, steps);
    RunConcat(kind, START, steps, more);
    BlockedRun(kind, Run(kind, START, steps), more);
  }

  /** The failing case, reached. */
  lemma BlockedResponseExample(body: Bytes)
    ensures var x := Run(Plain(body), START, [Ask, Pop(Done, Done, Blocked)]);
      x.stream.pending == [Plain(body).response] && NextItem(x.stream).None? && x.stream.wire.turns == 1
  {
    RunTwo(Plain(body), START, Ask, Pop(Done, Done, Blocked));
    assert [] + [Final(Plain(body))] == [Final(Plain(body))] && [Final(Plain(body))][1..] == [];
    assert [Plain(body).response] + [] == [Plain(body).response];
    assert Apply(Plain(body), START, Ask).stream.queue == Some(Queue([Final(Plain(body))], [], false));
  }

  // ---------- the guard of the parked retry ----------

  /**
   * Without its 512-byte guard the parked retry would end a stream early: exactly when nothing is taken and
   * the parked part's own count, added to the tracker, reaches the body's length.
   */
  lemma UnguardedRetryEndsEarlyExactly(body: Bytes, s: Stream, ha: HeadAnswer, a: Answer)
    requires Sending(body, s) && s.partial.Some? && Honest(s.wire, Unsent(s), false, a)
    ensures var t := HandleWritable(s, ha, a, Done);
      t.wire.offered > s.wire.offered && t.wire.accepted != body
      <==> !a.Fatal? && Count(Unsent(s), a) == 0 && s.partial.value.written + |s.wire.accepted| == |body|
  {
    var data := Unsent(s);
    var k := Count(data, a);
    assert data[..k] + data[k..] == data;
    var t := HandleWritable(s, ha, a, Done);
    assert t.wire.accepted == s.wire.accepted + data[..k] || a.Fatal?;
    if k == |data| && |t.wire.accepted| == |body| {
      PayloadEmpty(s.queue.value.low);
      assert data[..k] == data;
    }
  }

  lemma HalfTaken(body: Bytes)
    requires |body| == 2
    ensures Serve(Chunked(body), Took(1), Done, Sent)
      == FRESH.(headersSent := true, partial := Some(Partial(false, body, 1)), tracker := Some((1, 2)),
                wire := NO_WIRE.(accepted := body[..1], turns := 1, tried := true))
  {
    assert [] + body[..1] == body[..1];
    assert [Body(body)][1..] == [];
    assert NextItem(Chunked(body)) == Some((Body(body), Chunked(body).(queue := Some(Queue([], [], false)))));
  }

  /** A body half taken, then a transport with no room: the unguarded retry offers the end over half a body. */
  lemma UnguardedRetryExample(body: Bytes)
    requires |body| == 2
    ensures var steps := [Ask, Pop(Done, Done, Sent)] + [Read(2)] + [Pop(Took(1), Done, Sent)];
      var s := Run(Plain(body), START, steps).stream;
      && s.partial == Some(Partial(false, body, 1))
      && var w := HandleWritable(s, Sent, Done, Done).wire; w.offered == 1 && w.accepted == body[..1]
  {
    var (first, last) := ([Ask, Pop(Done, Done, Sent)] + [Read(2)], Pop(Took(1), Done, Sent));
    ChunkQueued(body);
    RunConcat(Plain(body), START, first, [last]);
    RunOne(Plain(body), Run(Plain(body), START, first), last);
    HalfTaken(body);
  }
}
