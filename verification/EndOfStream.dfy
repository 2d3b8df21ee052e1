/**
 * Whether a response can still be ended: the schedule that delivers what is left of it, and the exact
 * condition under which one exists.
 */
module EndOfStream {
  import opened Basics
  import opened Delivery
  import opened DeliveryRuns
  import opened RegularRuns
  import T = StreamTurns

  /** Only the chunker, the retry of a parked part and the send loop act. */
  predicate Delivers(steps: seq<Step>) {
    forall i | 0 <= i < |steps| :: steps[i].Read? || steps[i].Flush? || steps[i].Pop?
  }

  // ---------- a transport that takes everything ----------

  lemma FlushAll(body: Bytes, s: Stream)
    requires Sending(body, s) && s.partial.Some?
    ensures var a := Took(|Unsent(s)|); var t := HandleWritable(s, Sent, a, Took(0));
      && CanFlush(s, Sent, a, Took(0)) && Sending(body, t) && t.wire.accepted == s.wire.accepted + Unsent(s)
      && t.wire.fins - s.wire.fins == t.wire.offered - s.wire.offered
  {
    var data := Unsent(s);
    assert data[..|data|] == data;
    FlushCompletes(body, s, Took(0));
  }

  lemma PopAll(body: Bytes, s: Stream)
    requires Sending(body, s) && s.partial.None? && s.queue.value.low != []
    ensures var (data, a) := (NextData(s), Took(|NextData(s)|)); var t := Serve(s, a, Took(0), Sent);
      && CanPop(s, a, Took(0), Sent) && data != [] && t.wire.accepted == s.wire.accepted + data
      && (Sending(body, t) || Delivered(body, t))
      && t.wire.fins - s.wire.fins == t.wire.offered - s.wire.offered
  {
    PopsChunk(body, s);
    var data := s.queue.value.low[0].data;
    assert data[..|data|] == data;
    assert Serve(s, Took(|data|), Took(0), Sent) == ServeBody(Popped(s), data, Took(|data|), Took(0));
    ChunkSent(body, s, Took(0));
    assert s.wire.accepted + data + [] == s.wire.accepted + data;
  }

  lemma ReadNext(body: Bytes, s: Stream)
    requires Sending(body, s) && s.partial.None? && s.queue.value.low == [] && s.wire.offered == 0
    ensures s.chunking.Some?
    ensures var t := ReadChunk(s, Min(CHUNK_SIZE, |s.chunking.value|));
      Sending(body, t) && t.wire == s.wire && t.partial.None? && t.queue.value.low != []
  {
    assert s.wire.accepted + Unsent(s) + Payload(s.queue.value.low) == s.wire.accepted;
    assert Rest(s) == [] ==> s.wire.accepted + Rest(s) == s.wire.accepted;
    ReadKeepsSending(body, s, Min(CHUNK_SIZE, |s.chunking.value|));
  }

  // ---------- schedules ----------

  lemma Then(kind: Kind, x: Sys, step: Step, rest: seq<Step>) returns (more: seq<Step>)
    requires (step.Read? || step.Flush? || step.Pop?) && Delivers(rest)
    ensures Delivers(more) && Run(kind, x, more) == Run(kind, Apply(kind, x, step), rest)
  {
    more := [step] + rest;
    assert more[1..] == rest;
  }

  /** The next step of a delivery, and what is left afterwards. */
  function NextStep(s: Stream): Step {
    if s.partial.Some? then Flush(Sent, Took(|Unsent(s)|), Took(0))
    else if s.queue.Some? && s.queue.value.low != [] then Pop(Took(|NextData(s)|), Took(0), Sent)
    else Read(Min(CHUNK_SIZE, |Rest(s)|))
  }

  function Chunkless(s: Stream): nat {
    if s.partial.None? && s.queue.Some? && s.queue.value.low == [] then 1 else 0
  }

  lemma NextStepDelivers(kind: Kind, x: Sys, body: Bytes)
    requires Sending(body, x.stream) && x.stream.wire.offered == 0
    ensures var (s, t) := (x.stream, Apply(kind, x, NextStep(x.stream)).stream);
      && (Sending(body, t) || Delivered(body, t)) && t.wire.offered == t.wire.fins
      && |t.wire.accepted| <= |body|
      && (|t.wire.accepted| > |s.wire.accepted|
          || (t.wire == s.wire && Chunkless(t) < Chunkless(s)))
  {
    var s := x.stream;
    if s.partial.Some? {
      FlushAll(body, s);
    } else if s.queue.value.low != [] {
      PopAll(body, s);
    } else {
      ReadNext(body, s);
    }
  }

  /**
   * Progress: from every state of a body on its way a schedule of reads, retries and sends makes the transport
   * take all of it and its one end of stream.
   */
  lemma {:induction false} BodyCanBeDelivered(kind: Kind, x: Sys, body: Bytes) returns (more: seq<Step>)
    requires Sending(body, x.stream) && x.stream.wire.offered == 0
    ensures Delivers(more)
    ensures var w := Run(kind, x, more).stream.wire; w.accepted == body && w.offered == w.fins == 1
    decreases |body| - |x.stream.wire.accepted|, Chunkless(x.stream)
  {
    var y := Apply(kind, x, NextStep(x.stream));
    NextStepDelivers(kind, x, body);
    var rest: seq<Step> := [];
    if y.stream.wire.offered == 0 {
      rest := BodyCanBeDelivered(kind, y, body);
    }
    more := Then(kind, x, NextStep(x.stream), rest);
  }

  /** Headers that nothing blocks go out, after the interim one if it is still queued. */
  lemma HeadersCanGoOut(kind: Kind, x: Sys) returns (more: seq<Step>)
    requires WellFormed(kind) && kind.Regular? && Awaiting(kind, x) && x.asked && x.stream.pending == []
    ensures Delivers(more) && Begun(kind, Run(kind, x, more).stream)
  {
    var pop := Pop(Done, Done, Sent);
    if x.stream.queue.value.high == [kind.response] {
      ServedResponse(kind, x, Done, Done, Sent);
      RunOne(kind, x, pop);
      more := [pop];
    } else {
      var y := Apply(kind, x, pop);
      T.InterimIsNext(kind, x);
      ServedInterim(kind, x, Done, Done, Sent);
      ServedResponse(kind, y, Done, Done, Sent);
      RunTwo(kind, x, pop, pop);
      more := [pop, pop];
    }
  }

  lemma ResponseCanBeEnded(kind: Kind, x: Sys) returns (more: seq<Step>)
    requires WellFormed(kind) && kind.Regular? && CarriesEnd(kind) && Begun(kind, x.stream)
    ensures Delivers(more) && var w := Run(kind, x, more).stream.wire; w.offered == w.fins == 1
  {
    if HeadersOnly(kind, x.stream) {
      more := [];
    } else {
      more := BodyCanBeDelivered(kind, x, AttachedBody(kind.response).value);
    }
  }

  // ---------- what rules the end out ----------

  lemma NoEndIsNeverOffered(kind: Kind, steps: seq<Step>)
    requires WellFormed(kind) && kind.Regular? && !CarriesEnd(kind)
    ensures Run(kind, START, steps).stream.wire.offered == 0
  {
    Reachable(kind, steps);
  }

  lemma DeadStep(kind: Kind, x: Sys, step: Step)
    requires WellFormed(kind) && kind.Regular? && RegularInv(kind, x)
    requires x.stream.wire.dead && x.stream.wire.offered == 0
    ensures var w := Apply(kind, x, step).stream.wire; w.dead && w.offered == 0
  {
    StepGrows(kind, x, step);
    if AfterReset(kind, x) {
      GoneStep(kind, x, step);
    } else {
      match step
      case Flush(ha, a, fa) => BrokenOffersNothing(AttachedBody(kind.response).value, x.stream, a, fa, ha);
      case Pop(a, fa, ha) => BrokenOffersNothing(AttachedBody(kind.response).value, x.stream, a, fa, ha);
      case _ =>
    }
  }

  lemma {:induction false} DeadRun(kind: Kind, x: Sys, steps: seq<Step>)
    requires WellFormed(kind) && kind.Regular? && RegularInv(kind, x)
    requires x.stream.wire.dead && x.stream.wire.offered == 0
    ensures Run(kind, x, steps).stream.wire.offered == 0
    decreases |steps|
  {
    if steps == [] {
    } else {
      DeadStep(kind, x, steps[0]);
      RegularStep(kind, x, steps[0]);
      DeadRun(kind, Apply(kind, x, steps[0]), steps[1..]);
    }
  }

  /** The end is still to be offered: there is one, the transport lives, and no refused header is in front. */
  predicate StillToOffer(kind: Kind, s: Stream)
    requires kind.Regular? && kind.response.Header?
  {
    CarriesEnd(kind) && s.wire.offered == 0 && !s.wire.dead && s.pending == []
  }

  lemma EndIsRuledOut(kind: Kind, steps: seq<Step>, more: seq<Step>)
    requires WellFormed(kind) && kind.Regular?
    requires var s := Run(kind, START, steps).stream; s.wire.fins == 0 && !StillToOffer(kind, s)
    ensures Run(kind, Run(kind, START, steps), more).stream.wire.fins == 0
  {
    var x := Run(kind, START, steps);
    RunConcat(kind, START, steps, more);
    Reachable(kind, steps);
    ResponseIsAPrefixEndedOnce(kind, steps + more);
    if !CarriesEnd(kind) {
      NoEndIsNeverOffered(kind, steps + more);
    } else if x.stream.wire.offered > 0 {
      ResponseIsAPrefixEndedOnce(kind, steps);
      EndIsOfferedOnce(kind, steps, more);
    } else if x.stream.wire.dead {
      DeadRun(kind, x, more);
    } else {
      BlockedRun(kind, x, more);
    }
  }

  lemma EndIsWithinReach(kind: Kind, x: Sys) returns (more: seq<Step>)
    requires WellFormed(kind) && kind.Regular? && RegularInv(kind, x)
    requires x.stream.wire.fins == 1 || StillToOffer(kind, x.stream)
    ensures Run(kind, x, more).stream.wire.fins == 1
  {
    if x.stream.wire.fins == 1 {
      more := [];
    } else if Awaiting(kind, x) {
      var asked := Apply(kind, x, Ask);
      AwaitingStep(kind, x, Ask);
      assert Awaiting(kind, asked) && asked.asked && asked.stream.pending == [];
      RunOne(kind, x, Ask);
      var headers := HeadersCanGoOut(kind, asked);
      var rest := ResponseCanBeEnded(kind, Run(kind, asked, headers));
      RunConcat(kind, x, [Ask], headers);
      RunConcat(kind, x, [Ask] + headers, rest);
      more := [Ask] + headers + rest;
    } else {
      more := ResponseCanBeEnded(kind, x);
    }
  }

  // ---------- the exact conditions ----------

  /**
   * "The end of stream is eventually taken", from any moment of any run: some continuation ends the response
   * exactly when it is ended already, or carries an end that was not offered yet on a live transport with no
   * refused header in front.
   */
  lemma EndIsAheadExactly(kind: Kind, steps: seq<Step>)
    requires WellFormed(kind) && kind.Regular?
    ensures var x := Run(kind, START, steps);
      (exists more :: Run(kind, x, more).stream.wire.fins == 1)
      <==> x.stream.wire.fins == 1 || StillToOffer(kind, x.stream)
  {
    var x := Run(kind, START, steps);
    Reachable(kind, steps);
    ResponseIsAPrefixEndedOnce(kind, steps);
    if x.stream.wire.fins == 1 || StillToOffer(kind, x.stream) {
      var more := EndIsWithinReach(kind, x);
    } else {
      forall more
        ensures Run(kind, x, more).stream.wire.fins == 0
      {
        EndIsRuledOut(kind, steps, more);
      }
    }
  }

  /**
   * Known when the response is queued: once its headers were accepted, and while the transport lives, reads,
   * retries and sends alone can bring the end of stream to the transport exactly when the response was built
   * to end on its headers or with a body.
   */
  lemma EndIsOfferedExactly(kind: Kind, steps: seq<Step>)
    requires WellFormed(kind) && kind.Regular?
    requires var s := Run(kind, START, steps).stream; s.wire.turns > 0 && s.pending == [] && !s.wire.dead
    ensures var x := Run(kind, START, steps);
      (exists more :: Delivers(more) && Run(kind, x, more).stream.wire.offered == 1)
      <==> kind.response.isEnd || kind.response.attached.Some?
  {
    var x := Run(kind, START, steps);
    Reachable(kind, steps);
    if !CarriesEnd(kind) {
      forall more
        ensures Run(kind, x, more).stream.wire.offered == 0
      {
        RunConcat(kind, START, steps, more);
        NoEndIsNeverOffered(kind, steps + more);
      }
    } else if x.stream.wire.offered == 0 {
      var more := ResponseCanBeEnded(kind, x);
      assert Delivers(more) && Run(kind, x, more).stream.wire.offered == 1;
    } else {
      ResponseIsAPrefixEndedOnce(kind, steps);
      var none: seq<Step> := [];
      assert Delivers(none) && Run(kind, x, none) == x;
    }
  }

  const BARE: Kind := Regular(Header(SendAdditionalHeader, false, None))

  /**
   * The failing response: no body, and not marked as ending, which is how a GET route answers without a body
   * after a request that carried data. Its headers are accepted and nothing ever ends the stream.
   */
  lemma BareResponseExample(more: seq<Step>)
    ensures WellFormed(BARE)
    ensures var x := Run(BARE, START, [Ask, Pop(Done, Done, Sent)]);
      && x.stream.wire.turns == 1 && x.stream.pending == [] && !x.stream.wire.dead
      && Run(BARE, x, more).stream.wire.offered == 0
  {
    var steps := [Ask, Pop(Done, Done, Sent)];
    RunTwo(BARE, START, Ask, Pop(Done, Done, Sent));
    assert [] + [BARE.response] == [BARE.response] && [BARE.response][1..] == [];
    assert Apply(BARE, START, Ask).stream.queue == Some(Queue([BARE.response], [], false));
    RunConcat(BARE, START, steps, more);
    NoEndIsNeverOffered(BARE, steps + more);
  }
}
