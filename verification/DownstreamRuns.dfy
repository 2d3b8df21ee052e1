/** What a downstream keeps in every run: one opening, then the published messages, in order. */
module DownstreamRuns {
  import opened Basics
  import opened Delivery
  import opened DeliveryRuns

  predicate Messages(items: seq<Item>) {
    forall i | 0 <= i < |items| :: items[i].StreamData?
  }

  // ---------- the phases ----------

  /** The opening is not asked for yet, behind the interim header, queued, or blocked and waiting for its retry. */
  predicate Awaiting(x: Sys) {
    var s := x.stream;
    && OnlyHeaders(s) && s.queue.Some? && s.wire.offered == 0 && Lined(Downstream, x)
    && Messages(s.queue.value.low) && x.sent == Payload(s.queue.value.low) && (!x.asked ==> s.queue.value.low == [])
  }

  /** What holds once the opening was accepted, alive or not. */
  predicate Open(s: Stream) {
    && s.headersSent && s.tracker.None? && s.chunking.None?
    && s.queue.Some? && s.queue.value.high == [] && Messages(s.queue.value.low)
    && s.wire.openings == 1 && s.wire.offered == s.wire.fins == 0
  }

  /** The opening was accepted: stream data flows, in order. */
  predicate Streaming(x: Sys) {
    var s := x.stream;
    && Open(s) && !s.wire.dead && s.pending == [] && Parked(s)
    && s.wire.accepted + Unsent(s) + Payload(s.queue.value.low) == x.sent
  }

  predicate Failed(x: Sys) {
    var s := x.stream;
    && Open(s) && s.wire.dead && (s.pending == [] || s.pending[0].StreamData?) && ParkedOrTaken(s)
    && s.wire.accepted <= x.sent
  }

  predicate AfterReset(x: Sys) {
    var (s, w) := (x.stream, x.stream.wire);
    && Gone(s) && w.dead && s.tracker.None? && s.chunking.None?
    && w.openings <= 1 && w.offered == w.fins == 0
    && (w.tried || w.accepted != [] ==> w.openings == 1) && w.accepted <= x.sent
    && (w.turns > 0 ==> HadItsTurn(x))
  }

  predicate DownstreamInv(x: Sys) {
    Awaiting(x) || (HadItsTurn(x) && (Streaming(x) || Failed(x))) || AfterReset(x)
  }

  // ---------- one step in every phase ----------

  lemma PublishAwaiting(x: Sys, data: Bytes)
    requires Awaiting(x)
    ensures Awaiting(Apply(Downstream, x, Publish(data)))
  {
    PayloadSnoc(x.stream.queue.value.low, StreamData(data));
  }

  lemma PublishStreaming(x: Sys, data: Bytes)
    requires Streaming(x)
    ensures Streaming(Apply(Downstream, x, Publish(data)))
  {
    var (s, low) := (x.stream, x.stream.queue.value.low);
    PayloadSnoc(low, StreamData(data));
    if x.asked {
      assert s.wire.accepted + Unsent(s) + (Payload(low) + data)
          == (s.wire.accepted + Unsent(s) + Payload(low)) + data;
    }
  }

  lemma PublishFailed(x: Sys, data: Bytes)
    requires Failed(x)
    ensures Failed(Apply(Downstream, x, Publish(data)))
  {
    assert x.stream.wire.accepted <= x.sent <= x.sent + data;
  }

  lemma PublishAfterReset(x: Sys, data: Bytes)
    requires AfterReset(x)
    ensures AfterReset(Apply(Downstream, x, Publish(data)))
  {
    assert x.stream.wire.accepted <= x.sent <= x.sent + data;
  }

  lemma PublishKeeps(x: Sys, data: Bytes)
    requires DownstreamInv(x)
    ensures DownstreamInv(Apply(Downstream, x, Publish(data)))
  {
    if Awaiting(x) {
      PublishAwaiting(x, data);
    } else if HadItsTurn(x) && Streaming(x) {
      PublishStreaming(x, data);
    } else if HadItsTurn(x) && Failed(x) {
      PublishFailed(x, data);
    } else {
      PublishAfterReset(x, data);
    }
  }

  lemma StreamFlush(x: Sys, ha: HeadAnswer, a: Answer, fa: Answer)
    requires Streaming(x) && CanFlush(x.stream, ha, a, fa)
    ensures var y := Apply(Downstream, x, Flush(ha, a, fa)); Streaming(y) || Failed(y)
  {
    var (s, data) := (x.stream, Unsent(x.stream));
    var t := HandleWritable(s, ha, a, fa);
    if a.Fatal? {
      assert data[..0] == [];
    } else {
      Taken(s.wire.accepted, data, a.k);
      assert Unsent(t) == data[a.k..];
      assert t.wire.accepted == s.wire.accepted + data[..a.k];
    }
  }

  lemma MessageFails(x: Sys)
    requires Streaming(x) && x.stream.partial.None? && x.stream.queue.value.low != []
    ensures Failed(x.(stream := ServeStreamData(Popped(x.stream), x.stream.queue.value.low[0].data, Fatal)))
  {
    var data := x.stream.queue.value.low[0].data;
    assert data[..0] == [];
    assert x.stream.wire.accepted + [] == x.stream.wire.accepted;
  }

  lemma MessageSent(x: Sys, a: Answer)
    requires Streaming(x) && x.stream.partial.None? && x.stream.queue.value.low != [] && !a.Fatal?
    ensures Streaming(x.(stream := ServeStreamData(Popped(x.stream), x.stream.queue.value.low[0].data, a)))
  {
    var s := x.stream;
    var data := s.queue.value.low[0].data;
    var k := Count(data, a);
    var t := ServeStreamData(Popped(s), data, a);
    assert Payload(s.queue.value.low) == data + Payload(s.queue.value.low[1..]);
    Regroup(s.wire.accepted, data, Payload(s.queue.value.low[1..]));
    Taken(s.wire.accepted, data, k);
    assert t.wire.accepted == s.wire.accepted + data[..k];
    assert Unsent(t) == data[k..];
  }

  lemma StreamPop(x: Sys, a: Answer, fa: Answer, ha: HeadAnswer)
    requires Streaming(x) && CanPop(x.stream, a, fa, ha)
    ensures var y := Apply(Downstream, x, Pop(a, fa, ha)); Streaming(y) || Failed(y)
  {
    var s := x.stream;
    if s.partial.None? && s.queue.value.low != [] {
      assert NextItem(s) == Some((StreamData(s.queue.value.low[0].data), Popped(s)));
      if a.Fatal? {
        MessageFails(x);
      } else {
        MessageSent(x, a);
      }
    }
  }

  lemma FailedFlush(x: Sys, ha: HeadAnswer, a: Answer, fa: Answer)
    requires Failed(x) && CanFlush(x.stream, ha, a, fa)
    ensures Failed(Apply(Downstream, x, Flush(ha, a, fa)))
  {
    assert Unsent(x.stream)[..0] == [];
  }

  lemma FailedPop(x: Sys, a: Answer, fa: Answer, ha: HeadAnswer)
    requires Failed(x) && CanPop(x.stream, a, fa, ha)
    ensures Failed(Apply(Downstream, x, Pop(a, fa, ha)))
  {
    if NextItem(x.stream).Some? {
      assert x.stream.queue.value.low != [];
      assert x.stream.queue.value.low[0].data[..0] == [];
    }
  }

  lemma OpenStep(x: Sys, step: Step)
    requires x.asked && (Streaming(x) || Failed(x)) && !step.Publish? && !step.AskReset? && !step.Resets?
    ensures var y := Apply(Downstream, x, step); Streaming(y) || Failed(y)
  {
    match step
    case Flush(ha, a, fa) =>
      if CanFlush(x.stream, ha, a, fa) {
        if Streaming(x) { StreamFlush(x, ha, a, fa); } else { FailedFlush(x, ha, a, fa); }
      }
    case Pop(a, fa, ha) =>
      if CanPop(x.stream, a, fa, ha) {
        if Streaming(x) { StreamPop(x, a, fa, ha); } else { FailedPop(x, a, fa, ha); }
      }
    case _ =>
  }

  lemma InterimsStay(x: Sys, step: Step)
    requires x.asked && (Streaming(x) || Failed(x))
    ensures var y := Apply(Downstream, x, step);
      y.asked && y.interim == x.interim && y.stream.wire.interims == x.stream.wire.interims
  {
    match step
    case Pop(a, fa, ha) =>
      if NextItem(x.stream).Some? {
        NextItemKeeps(x.stream);
        assert NextItem(x.stream).value.0.StreamData?;
      }
    case _ =>
  }

  lemma ServedInterim(x: Sys, a: Answer, fa: Answer, ha: HeadAnswer)
    requires Awaiting(x) && CanPop(x.stream, a, fa, ha)
    requires x.stream.pending == [] && x.stream.queue.value.high != [] && x.stream.queue.value.high[0] == INTERIM
    ensures Awaiting(Apply(Downstream, x, Pop(a, fa, ha)))
  {
    var t := Serve(x.stream, a, fa, ha);
    assert x.stream.queue.value.high == [INTERIM] + (if x.asked then [OPENING] else []);
    assert t.queue.value.high == if x.asked then [OPENING] else [];
  }

  /** The opening, queued or waiting for its retry: accepted, blocked once more, or refused for good. */
  lemma ServedOpening(x: Sys, a: Answer, fa: Answer, ha: HeadAnswer)
    requires Awaiting(x) && CanPop(x.stream, a, fa, ha) && x.asked
    requires NextItem(x.stream).Some? && NextItem(x.stream).value.0 == OPENING
    ensures DownstreamInv(Apply(Downstream, x, Pop(a, fa, ha)))
  {
    var (s, t) := (x.stream, Serve(x.stream, a, fa, ha));
    NextItemKeeps(s);
    assert NextItem(s).value.1.pending == [] && NextItem(s).value.1.queue.value.high == [];
    assert [] + Payload(s.queue.value.low) == Payload(s.queue.value.low);
  }

  lemma NextHeader(x: Sys)
    requires Awaiting(x)
    ensures var (s, next) := (x.stream, NextItem(x.stream));
      next.Some? ==>
        || (s.pending == [] && s.queue.value.high != [] && s.queue.value.high[0] == INTERIM)
        || (x.asked && next.value.0 == OPENING)
  {
  }

  lemma AwaitingStep(x: Sys, step: Step)
    requires Awaiting(x) && !step.Publish? && !step.AskReset? && !step.Resets?
    ensures DownstreamInv(Apply(Downstream, x, step))
  {
    match step
    case Pop(a, fa, ha) =>
      NextHeader(x);
      if CanPop(x.stream, a, fa, ha) && NextItem(x.stream).Some? {
        if x.asked && NextItem(x.stream).value.0 == OPENING {
          ServedOpening(x, a, fa, ha);
        } else {
          ServedInterim(x, a, fa, ha);
        }
      }
    case Interim => assert [] + [INTERIM] == [INTERIM] + [];
    case Ask => assert [] + [OPENING] == [OPENING] && [INTERIM] + [] + [OPENING] == [INTERIM] + [OPENING];
    case _ =>
  }

  lemma ResetKeeps(x: Sys, step: Step)
    requires DownstreamInv(x) && (step.AskReset? || step.Resets?)
    ensures DownstreamInv(Apply(Downstream, x, step))
  {
  }

  lemma DownstreamStep(x: Sys, step: Step)
    requires DownstreamInv(x)
    ensures DownstreamInv(Apply(Downstream, x, step))
  {
    if step.Publish? {
      PublishKeeps(x, step.data);
    } else if step.AskReset? || step.Resets? {
      ResetKeeps(x, step);
    } else if Awaiting(x) {
      AwaitingStep(x, step);
    } else if HadItsTurn(x) && (Streaming(x) || Failed(x)) {
      OpenStep(x, step);
      InterimsStay(x, step);
      StepGrows(Downstream, x, step);
    } else {
      GoneStep(Downstream, x, step);
    }
  }

  lemma {:induction false} DownstreamRun(x: Sys, steps: seq<Step>)
    requires DownstreamInv(x)
    ensures DownstreamInv(Run(Downstream, x, steps))
    decreases |steps|
  {
    if steps == [] {
    } else {
      DownstreamStep(x, steps[0]);
      DownstreamRun(Apply(Downstream, x, steps[0]), steps[1..]);
    }
  }

  lemma Reachable(steps: seq<Step>)
    ensures DownstreamInv(Run(Downstream, START, steps))
  {
    assert Awaiting(START);
    DownstreamRun(START, steps);
  }

  // ---------- what every run guarantees ----------

  /**
   * Stream data reaches the transport only after the opening was accepted, the opening is accepted at most
   * once however often it blocks, what the transport took is a prefix of what was published, and a downstream
   * never passes an end of stream.
   */
  lemma DataFollowsOneOpening(steps: seq<Step>)
    ensures var x := Run(Downstream, START, steps); var w := x.stream.wire;
      && w.openings <= 1 && w.offered == w.fins == 0
      && (w.tried || w.accepted != [] ==> w.openings == 1)
      && w.accepted <= x.sent
  {
    Reachable(steps);
  }

  /** While the stream is alive nothing published is lost or reordered. */
  lemma StreamDataIsConserved(steps: seq<Step>)
    ensures var x := Run(Downstream, START, steps);
      !x.stream.wire.dead ==> x.stream.wire.accepted + Unsent(x.stream) + Low(x.stream) == x.sent
  {
    Reachable(steps);
  }
}
