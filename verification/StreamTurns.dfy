/** When a stream's final header gets its turn, and what a reset does, for every kind of stream. */
module StreamTurns {
  import opened Basics
  import opened Delivery
  import opened DeliveryRuns
  import R = RegularRuns
  import D = DownstreamRuns

  /** What both kinds of stream keep. */
  lemma Reachable(kind: Kind, steps: seq<Step>)
    requires WellFormed(kind)
    ensures var x := Run(kind, START, steps);
      && (x.stream.queue.None? ==> Gone(x.stream))
      && (x.stream.wire.turns > 0 ==> x.stream.wire.interims == Ones(x.interim))
      && (x.stream.queue.Some? && x.stream.wire.turns == 0 ==> OnlyHeaders(x.stream) && Lined(kind, x))
      && (x.stream.partial.Some? ==> !x.stream.partial.value.headers)
  {
    if kind.Regular? {
      R.Reachable(kind, steps);
    } else {
      D.Reachable(steps);
    }
  }

  /** No run ever parks a part whose headers still have to go out. */
  lemma NoHeadersAreParked(kind: Kind, steps: seq<Step>)
    requires WellFormed(kind)
    ensures var s := Run(kind, START, steps).stream; s.partial.Some? ==> !s.partial.value.headers
  {
    Reachable(kind, steps);
  }

  // ---------- the turn of the final header ----------

  /** The response or the opening is passed to the transport only after the interim header was accepted. */
  lemma TurnFollowsInterim(kind: Kind, steps: seq<Step>)
    requires WellFormed(kind)
    ensures var x := Run(kind, START, steps); x.stream.wire.turns > 0 && x.interim ==> x.stream.wire.interims == 1
  {
    Reachable(kind, steps);
  }

  lemma StuckStep(kind: Kind, x: Sys, step: Step)
    requires WellFormed(kind) && x.stream.pending == [INTERIM] && x.stream.wire.turns == 0 && OnlyHeaders(x.stream)
    ensures var y := Apply(kind, x, step);
      && y.stream.wire.turns == 0
      && (Gone(y.stream) || (y.stream.pending == [INTERIM] && OnlyHeaders(y.stream)))
  {
    assert NextItem(x.stream).None?;
  }

  lemma {:induction false} StuckRun(kind: Kind, x: Sys, steps: seq<Step>)
    requires WellFormed(kind) && x.stream.pending == [INTERIM] && x.stream.wire.turns == 0 && OnlyHeaders(x.stream)
    ensures Run(kind, x, steps).stream.wire.turns == 0
    decreases |steps|
  {
    if steps == [] {
    } else {
      var y := Apply(kind, x, steps[0]);
      StuckStep(kind, x, steps[0]);
      if Gone(y.stream) {
        NothingAfterGone(kind, y, steps[1..]);
      } else {
        StuckRun(kind, y, steps[1..]);
      }
    }
  }

  /** An accepting transport serves the header in front. */
  lemma FinalIsNext(kind: Kind, x: Sys)
    requires WellFormed(kind) && x.asked && x.stream.queue.Some? && OnlyHeaders(x.stream)
    requires x.stream.pending == [] && x.stream.queue.value.high == [Final(kind)]
    ensures Apply(kind, x, Pop(Done, Done, Sent)).stream.wire.turns == x.stream.wire.turns + 1
  {
    var next := NextItem(x.stream);
    assert next.Some? && next.value.0 == Final(kind);
    NextItemKeeps(x.stream);
    HeaderWire(next.value.1, next.value.0, Sent);
  }

  lemma InterimIsNext(kind: Kind, x: Sys)
    requires WellFormed(kind) && x.asked && x.stream.queue.Some? && OnlyHeaders(x.stream)
    requires x.stream.pending == [] && x.stream.queue.value.high == [INTERIM] + [Final(kind)]
    ensures var y := Apply(kind, x, Pop(Done, Done, Sent));
      && y.asked && y.stream.queue.Some? && OnlyHeaders(y.stream)
      && y.stream.pending == [] && y.stream.queue.value.high == [Final(kind)]
      && y.stream.wire.turns == x.stream.wire.turns
  {
    assert x.stream.queue.value.high[0] == INTERIM;
    assert ([INTERIM] + [Final(kind)])[1..] == [Final(kind)];
  }

  /** A continuation in which the final header has its turn, whenever the interim one does not block it. */
  lemma ATurnAhead(kind: Kind, x: Sys) returns (more: seq<Step>)
    requires WellFormed(kind) && x.asked && x.stream.queue.Some? && x.stream.wire.turns == 0
    requires OnlyHeaders(x.stream) && Lined(kind, x) && x.stream.pending != [INTERIM]
    ensures Run(kind, x, more).stream.wire.turns > 0
  {
    var pop := Pop(Done, Done, Sent);
    if x.stream.queue.value.high == [Final(kind)] {
      FinalIsNext(kind, x);
      RunOne(kind, x, pop);
      more := [pop];
    } else {
      InterimIsNext(kind, x);
      FinalIsNext(kind, Apply(kind, x, pop));
      RunTwo(kind, x, pop, pop);
      more := [pop, pop];
    }
  }

  /**
   * Exactly when a queued response or opening can still get its turn: when no refused interim header stands
   * in front of its stream. What is not yet accepted is not lost, what was once refused is not retried.
   */
  lemma TurnIsAheadExactly(kind: Kind, steps: seq<Step>)
    requires WellFormed(kind)
    requires var x := Run(kind, START, steps); x.asked && x.stream.queue.Some? && x.stream.wire.turns == 0
    ensures var x := Run(kind, START, steps);
      (exists more :: Run(kind, x, more).stream.wire.turns > 0) <==> x.stream.pending != [INTERIM]
  {
    var x := Run(kind, START, steps);
    Reachable(kind, steps);
    if x.stream.pending == [INTERIM] {
      forall more
        ensures Run(kind, x, more).stream.wire.turns == 0
      {
        StuckRun(kind, x, more);
      }
    } else {
      var more := ATurnAhead(kind, x);
    }
  }

  lemma ServedInterimWaits(kind: Kind, x: Sys, a: Answer, fa: Answer, ha: HeadAnswer)
    requires WellFormed(kind) && x.asked && x.stream.queue.Some? && x.stream.wire.turns == 0
    requires CanPop(x.stream, a, fa, ha) && OnlyHeaders(x.stream)
    requires x.stream.pending == [] && x.stream.queue.value.high == [INTERIM] + [Final(kind)]
    ensures var y := Apply(kind, x, Pop(a, fa, ha));
      && y.asked && y.stream.queue.Some? && y.stream.wire.turns == 0
      && (y.stream.pending == [INTERIM] <==> !ha.Sent?)
  {
    assert x.stream.queue.value.high[0] == INTERIM;
  }

  /**
   * The response or the opening behind a queued interim header gets its turn, in some continuation, exactly
   * when the transport accepts the interim header at its one send.
   */
  lemma InterimAnswerDecidesTheTurn(kind: Kind, steps: seq<Step>, a: Answer, fa: Answer, ha: HeadAnswer)
    requires WellFormed(kind)
    requires var x := Run(kind, START, steps);
      && x.asked && x.stream.queue.Some? && x.stream.queue.value.high == [INTERIM] + [Final(kind)]
      && x.stream.pending == [] && CanPop(x.stream, a, fa, ha)
    ensures var y := Run(kind, START, steps + [Pop(a, fa, ha)]);
      (exists more :: Run(kind, y, more).stream.wire.turns > 0) <==> ha.Sent?
  {
    var (x, pop) := (Run(kind, START, steps), Pop(a, fa, ha));
    QueuedBehindInterim(kind, steps);
    RunConcat(kind, START, steps, [pop]);
    RunOne(kind, x, pop);
    ServedInterimWaits(kind, x, a, fa, ha);
    TurnIsAheadExactly(kind, steps + [pop]);
  }

  lemma QueuedBehindInterim(kind: Kind, steps: seq<Step>)
    requires WellFormed(kind)
    requires var x := Run(kind, START, steps);
      && x.asked && x.stream.queue.Some? && x.stream.queue.value.high == [INTERIM] + [Final(kind)]
      && x.stream.pending == []
    ensures var x := Run(kind, START, steps); x.stream.wire.turns == 0 && OnlyHeaders(x.stream)
  {
    if kind.Regular? {
      R.Reachable(kind, steps);
    } else {
      D.Reachable(steps);
    }
  }

  /** Such a blocked stream is reached, whatever is queued behind the interim header. */
  lemma BlockedInterimExample(kind: Kind)
    requires WellFormed(kind)
    ensures var x := Run(kind, START, [Interim, Ask] + [Pop(Done, Done, Blocked)]);
      x.asked && x.stream.queue.Some? && x.stream.wire.turns == 0 && x.stream.pending == [INTERIM]
  {
    RunTwo(kind, START, Interim, Ask);
    var x := Run(kind, START, [Interim, Ask]);
    assert [] + [INTERIM] == [INTERIM];
    assert x.stream.queue == Some(Queue([INTERIM] + [Final(kind)], [], false));
    RunConcat(kind, START, [Interim, Ask], [Pop(Done, Done, Blocked)]);
    RunOne(kind, x, Pop(Done, Done, Blocked));
    assert NextItem(x.stream).value.0 == INTERIM;
  }

  // ---------- resets ----------

  predicate ResetPending(s: Stream) {
    s.queue.None? || s.queue.value.reset
  }

  lemma ServedBodyQueue(s: Stream, data: Bytes, a: Answer, fa: Answer)
    ensures var t := ServeBody(s, data, a, fa); t.queue == s.queue || t.queue.None?
  {
  }

  lemma ServedHeaderQueue(s: Stream, item: Item, ha: HeadAnswer)
    requires item.Header?
    ensures var t := ServeHeader(s, item, ha); t.queue == s.queue || t.queue.None?
  {
  }

  lemma ServedQueue(s: Stream, a: Answer, fa: Answer, ha: HeadAnswer)
    requires ResetPending(s)
    ensures ResetPending(Serve(s, a, fa, ha))
  {
    var next := NextItem(s);
    if next.Some? {
      NextItemKeeps(s);
      match next.value.0
      case Header(_, _, _) => ServedHeaderQueue(next.value.1, next.value.0, ha);
      case Body(data) => ServedBodyQueue(next.value.1, data, a, fa);
      case StreamData(data) =>
      case BodyProgression(data) =>
    }
  }

  lemma ResetRequestKept(kind: Kind, x: Sys, step: Step)
    requires ResetPending(x.stream)
    ensures ResetPending(Apply(kind, x, step).stream)
  {
    match step
    case Pop(a, fa, ha) => ServedQueue(x.stream, a, fa, ha);
    case _ =>
  }

  lemma {:induction false} ResetRequestPersists(kind: Kind, x: Sys, steps: seq<Step>)
    requires ResetPending(x.stream)
    ensures ResetPending(Run(kind, x, steps).stream)
    decreases |steps|
  {
    if steps == [] {
    } else {
      ResetRequestKept(kind, x, steps[0]);
      ResetRequestPersists(kind, Apply(kind, x, steps[0]), steps[1..]);
    }
  }

  /**
   * A requested reset is honoured by the next sweep, whatever blocked headers or parked bytes the stream has
   * by then: every queue is empty, and nothing is sent from then on.
   */
  lemma ResetSilencesTheStream(kind: Kind, before: seq<Step>, between: seq<Step>, more: seq<Step>)
    requires WellFormed(kind)
    ensures var swept := Run(kind, START, before + [AskReset] + between + [Resets]);
      && Gone(swept.stream)
      && Run(kind, swept, more).stream.wire == swept.stream.wire
  {
    var asked := before + [AskReset];
    var all := asked + between;
    var (x, y) := (Run(kind, START, all), Run(kind, START, before));
    RunConcat(kind, START, before, [AskReset]);
    RunConcat(kind, START, asked, between);
    RunConcat(kind, START, all, [Resets]);
    RunOne(kind, y, AskReset);
    RunOne(kind, x, Resets);
    ResetRequestPersists(kind, Apply(kind, y, AskReset), between);
    Reachable(kind, all);
    NothingAfterGone(kind, Apply(kind, x, Resets), more);
  }
}
