/**
 * Uploads that meet no obstacle: with willing devices and a declared length that is absent or right, every
 * handed-out file completes, no callback is lost, and from every state the upload can be brought to its end.
 */
module UploadCompletion {
  import opened Basics
  import FW = FileWriter
  import WF = WriterFailures
  import WR = WriterRuns
  import opened RequestTable
  import opened UploadRuns

  // ---------- willing devices ----------

  predicate WillingIo(io: FW.Io) {
    io.flush.ok && io.seal.ok && io.write.ok && io.opens && io.truncates
  }

  predicate WillingStep(step: Step) {
    match step
    case Data(_, io) => WillingIo(io)
    case FlushBody(io) => WillingIo(io)
    case Work(io) => WillingIo(io)
    case Use(_, io) => WillingIo(io)
    case Settle(_, io) => WillingIo(io)
    case _ => true
  }

  predicate Willing(steps: seq<Step>) {
    forall i | 0 <= i < |steps| :: WillingStep(steps[i])
  }

  /** The declared length is absent or the size of the whole body. */
  predicate RightLength(length: Option<nat>, total: nat) {
    length.None? || length.value == total
  }

  // ---------- nothing fails ----------

  /** An unfailed file that knows no length but the right one, and no thread that would discard a callback. */
  predicate SmoothFile(sys: WR.Sys, total: nat) {
    && sys.w.failure.None? && RightLength(sys.w.length, total)
    && WR.ThenTake !in sys.conts && sys.discarded == multiset{}
  }

  predicate Smooth(u: Upload, total: nat) {
    !u.cancelled && u.file.Some? ==> SmoothFile(u.file.value, total)
  }

  /** A region that fails neither the file nor its call keeps the file smooth. */
  lemma SmoothOp(sys: WR.Sys, op: FW.Op, io: FW.Io, total: nat)
    requires WR.Inv(sys) && SmoothFile(sys, total)
    requires var region := FW.Locked(sys.w, WR.Numbered(op, sys.next), io);
      region.w.failure.None? && region.outcome.Ready?
    requires op.SetLength? && sys.w.length.None? ==> op.length == total
    ensures SmoothFile(WR.ApplyOp(sys, op, io), total)
  {
    FW.LockedCorrect(sys.w, WR.Numbered(op, sys.next), io);
    OpEffect(sys, op, io);
  }

  /** What is left to write fits, because it is part of the body. */
  lemma SmoothWrite(sys: WR.Sys, queue: seq<Bytes>, all: Bytes, io: FW.Io, total: nat)
    requires WR.Inv(sys) && SmoothFile(sys, total) && WillingIo(io) && queue != []
    requires |all| <= total < WORD_LIMIT
    requires all == sys.w.Content() + Flatten(queue)
    ensures SmoothFile(WR.ApplyOp(sys, FW.Write(queue[0]), io), total)
  {
    assert Flatten(queue) == queue[0] + Flatten(queue[1..]);
    WF.WriteFailsExactly(sys.w, queue[0], io);
    WF.ReadyWhenUnfailed(sys.w, FW.Write(queue[0]), io);
    SmoothOp(sys, FW.Write(queue[0]), io, total);
  }

  lemma SmoothPrefix(sys: WR.Sys, body: Bytes, io: FW.Io, total: nat)
    requires WR.Inv(sys) && SmoothFile(sys, total) && WillingIo(io) && |body| <= total
    requires !sys.w.canClose && sys.w.Content() == []
    ensures SmoothFile(WR.ApplyOp(sys, FW.Prefix(body), io), total)
  {
    WF.PrefixFailsExactly(sys.w, body, io);
    WF.ReadyWhenUnfailed(sys.w, FW.Prefix(body), io);
    SmoothOp(sys, FW.Prefix(body), io, total);
  }

  lemma SmoothSetLength(sys: WR.Sys, io: FW.Io, total: nat)
    requires WR.Inv(sys) && SmoothFile(sys, total) && WillingIo(io) && |sys.w.Content()| <= total
    ensures SmoothFile(WR.ApplyOp(sys, FW.SetLength(total), io), total)
  {
    WF.SetLengthFailsExactly(sys.w, total, io);
    WF.ReadyWhenUnfailed(sys.w, FW.SetLength(total), io);
    SmoothOp(sys, FW.SetLength(total), io, total);
  }

  /** The application's calls on a file of known length. */
  lemma SmoothUse(sys: WR.Sys, op: FW.Op, io: FW.Io, total: nat)
    requires WR.Inv(sys) && SmoothFile(sys, total) && WillingIo(io) && Allowed(op) && sys.w.length == Some(total)
    ensures SmoothFile(WR.ApplyOp(sys, op, io), total)
  {
    var numbered := WR.Numbered(op, sys.next);
    match numbered
    case Flush => WF.FlushFailsExactly(sys.w, io);
    case SetLength(length) => WF.SetLengthFailsExactly(sys.w, length, io);
    case Register(id) => WF.RegisterFailsExactly(sys.w, id, io);
    case _ =>
    WF.ReadyWhenUnfailed(sys.w, numbered, io);
    SmoothOp(sys, op, io, total);
  }

  // ---------- one step ----------

  /** What one step leads to, of a body that will have `total` bytes. */
  predicate Towards(v: Upload, total: nat) {
    && |v.all| <= total < WORD_LIMIT && (v.fin ==> |v.all| == total)
    && (v.mid == Updated ==> RightLength(v.past.declared, total))
  }

  lemma SmoothData(u: Upload, packet: Bytes, io: FW.Io, total: nat)
    requires Inv(u) && Smooth(u, total) && WillingIo(io) && Towards(ApplyData(u, packet, io), total)
    ensures Smooth(ApplyData(u, packet, io), total)
  {
    if !u.fin && !u.cancelled && u.file.Some? {
      assert u.phase == Receiving && u.entry.value.writer;
      if u.entry.value.body != [] {
        DataPrefixStep(u, packet, io);
        SmoothPrefix(u.file.value, u.entry.value.body, io, total);
      }
    }
  }

  lemma SmoothStored(
    u: Upload, entry: Entry, mode: Option<Mode>, hasFile: bool, length: Option<nat>, listens: bool, total: nat)
    requires RightLength(length, total)
    ensures Smooth(Stored(u, entry, mode, hasFile, length, listens), total)
  {
    assert SmoothFile(WR.Initial(length), total);
  }

  lemma SmoothUpdate(
    u: Upload, mode: Option<Mode>, hasFile: bool, length: Option<nat>, listens: bool, total: nat)
    requires Inv(u) && Smooth(u, total) && Towards(ApplyUpdate(u, mode, hasFile, length, listens), total)
    ensures Smooth(ApplyUpdate(u, mode, hasFile, length, listens), total)
  {
    match u.mid
    case Found(true) =>
      if u.entry.Some? {
        SmoothStored(u, Completed(u.entry.value, mode, hasFile), mode, hasFile, length, listens, total);
      }
    case Creating =>
      if u.entry.None? {
        SmoothStored(u, FreshEntry(mode, hasFile), mode, hasFile, length, listens, total);
      }
    case _ =>
  }

  lemma SmoothFlushBody(u: Upload, io: FW.Io, total: nat)
    requires Inv(u) && Smooth(u, total) && WillingIo(io) && |u.all| <= total
    ensures Smooth(ApplyFlushBody(u, io), total)
  {
    if MayFinish(u) && u.file.Some? && u.entry.value.body != [] {
      SmoothPrefix(u.file.value, u.entry.value.body, io, total);
    }
  }

  lemma SmoothAnnounce(u: Upload, total: nat)
    requires Inv(u) && Smooth(u, total) && (u.fin ==> |u.all| == total)
    ensures Smooth(ApplyAnnounce(u), total)
  {
  }

  /** Bytes on their way are bytes of the body, and a complete file leaves none. */
  lemma NothingRefused(u: Upload, total: nat)
    requires Inv(u) && !u.cancelled && u.file.Some? && u.queue != [] && SmoothFile(u.file.value, total)
    requires |u.all| <= total
    ensures u.all == u.file.value.w.Content() + Flatten(u.queue)
  {
    var w := u.file.value.w;
    assert w.canClose ==> |w.disk| == total;
    assert w.Content() + Flatten(u.queue) + [] == w.Content() + Flatten(u.queue);
  }

  lemma SmoothWork(u: Upload, io: FW.Io, total: nat)
    requires Inv(u) && Smooth(u, total) && WillingIo(io) && |u.all| <= total < WORD_LIMIT
    ensures Smooth(Apply(u, Work(io)), total)
  {
    if u.queue != [] && u.file.Some? && !u.cancelled {
      NothingRefused(u, total);
      SmoothWrite(u.file.value, u.queue, u.all, io, total);
    }
  }

  lemma SmoothUseStep(u: Upload, op: FW.Op, io: FW.Io, total: nat)
    requires Inv(u) && Smooth(u, total) && WillingIo(io) && (u.fin ==> |u.all| == total)
    ensures Smooth(Apply(u, Use(op, io)), total)
  {
    if u.event.Some? && u.event.value.writer && u.file.Some? && Allowed(op) {
      assert u.phase == Handed && u.fin && !u.cancelled;
      SmoothUse(u.file.value, op, io, total);
    }
  }

  lemma ContentAtMostAll(u: Upload)
    requires Inv(u) && !u.cancelled && u.file.Some? && u.phase == Announced && u.file.value.w.failure.None?
    ensures |u.file.value.w.Content()| <= |u.all|
  {
  }

  lemma SmoothSettle(u: Upload, cont: WR.Cont, io: FW.Io, total: nat)
    requires Inv(u) && Smooth(u, total) && WillingIo(io) && (u.fin ==> |u.all| == total)
    ensures Smooth(Apply(u, Settle(cont, io)), total)
  {
    if u.file.Some? && cont in u.file.value.conts && cont.ThenSetLength? && !u.cancelled {
      var sys := u.file.value;
      assert AnnouncementRunning(sys) && u.phase == Announced && u.fin && cont.length == total;
      ContentAtMostAll(u);
      WR.RemoveInv(sys, cont);
      SmoothSetLength(sys.(conts := sys.conts - multiset{cont}), io, total);
    }
  }

  lemma SmoothStep(u: Upload, step: Step, total: nat)
    requires Inv(u) && Smooth(u, total) && WillingStep(step) && Towards(Apply(u, step), total) && Towards(u, total)
    ensures Smooth(Apply(u, step), total)
  {
    match step
    case Data(packet, io) => SmoothData(u, packet, io, total);
    case Update(mode, hasFile, length, listens) => SmoothUpdate(u, mode, hasFile, length, listens, total);
    case FlushBody(io) => SmoothFlushBody(u, io, total);
    case AnnounceSize => SmoothAnnounce(u, total);
    case Work(io) => SmoothWork(u, io, total);
    case Use(op, io) => SmoothUseStep(u, op, io, total);
    case Settle(cont, io) => SmoothSettle(u, cont, io, total);
    case _ =>
  }

  // ---------- runs ----------

  lemma DataGrows(u: Upload, packet: Bytes, io: FW.Io)
    ensures var v := ApplyData(u, packet, io);
      && |u.all| <= |v.all| && (u.fin ==> v.all == u.all)
      && v.fin == u.fin && v.mid == u.mid && v.past.declared == u.past.declared
  {
  }

  lemma UpdateGrows(u: Upload, mode: Option<Mode>, hasFile: bool, length: Option<nat>, listens: bool)
    ensures var v := ApplyUpdate(u, mode, hasFile, length, listens);
      v.all == u.all && v.fin == u.fin && (u.mid == Updated ==> v == u)
  {
  }

  lemma FlushBodyGrows(u: Upload, io: FW.Io)
    ensures var v := ApplyFlushBody(u, io);
      v.all == u.all && v.fin == u.fin && v.mid == u.mid && v.past.declared == u.past.declared
  {
  }

  /** The body only grows, not after FIN, and the declared length is fixed by header processing. */
  lemma StepGrows(u: Upload, step: Step)
    ensures var v := Apply(u, step);
      && |u.all| <= |v.all| && (u.fin ==> v.fin && v.all == u.all)
      && (u.mid == Updated ==> v.mid == Updated && v.past.declared == u.past.declared)
  {
    match step
    case Data(packet, io) => DataGrows(u, packet, io);
    case Update(mode, hasFile, length, listens) => UpdateGrows(u, mode, hasFile, length, listens);
    case FlushBody(io) => FlushBodyGrows(u, io);
    case Work(io) => WorkHistory(u, io);
    case Use(op, io) => UseHistory(u, op, io);
    case Settle(cont, io) => SettleHistory(u, cont, io);
    case _ =>
  }

  lemma {:induction false} RunGrows(u: Upload, steps: seq<Step>)
    ensures var v := Run(u, steps);
      && |u.all| <= |v.all| && (u.fin ==> v.fin && v.all == u.all)
      && (u.mid == Updated ==> v.mid == Updated && v.past.declared == u.past.declared)
    decreases |steps|
  {
    if steps == [] {
    } else {
      StepGrows(u, steps[0]);
      RunGrows(Apply(u, steps[0]), steps[1..]);
    }
  }

  lemma {:induction false} SmoothRun(u: Upload, steps: seq<Step>, total: nat)
    requires Inv(u) && Smooth(u, total) && Willing(steps) && total < WORD_LIMIT
    requires var v := Run(u, steps); |v.all| == total && RightLength(v.past.declared, total)
    ensures Smooth(Run(u, steps), total)
    decreases |steps|
  {
    if steps == [] {
    } else {
      var next := Apply(u, steps[0]);
      RunGrows(u, steps);
      RunGrows(next, steps[1..]);
      SmoothStep(u, steps[0], total);
      StepInv(u, steps[0]);
      SmoothRun(next, steps[1..], total);
    }
  }

  /**
   * An upload whose devices refuse nothing and whose declared length is absent or right never fails: once no
   * bytes wait at the file worker, the handed-out file is complete with exactly the received bytes, and every
   * registered callback was dispatched, was overwritten, or is in a settling thread's hand.
   */
  lemma WillingUploadCompletes(steps: seq<Step>)
    requires Willing(steps)
    ensures var u := Run(START, steps);
            && u.event.Some? && u.event.value.writer && Flatten(u.queue) == []
            && |u.all| < WORD_LIMIT && RightLength(u.past.declared, |u.all|) ==>
              && u.file.Some? && u.file.value.w.failure.None? && u.file.value.w.canClose
              && u.file.value.w.disk == u.all
              && u.file.value.w.callback.None? && u.file.value.discarded == multiset{}
              && (u.file.value.conts == multiset{} ==> forall id: FW.CallbackId | id < u.file.value.next ::
                    u.file.value.dispatched[id] + u.file.value.overwritten[id] == 1)
  {
    var u := Run(START, steps);
    RunInv(START, steps);
    if && u.event.Some? && u.event.value.writer && Flatten(u.queue) == []
       && |u.all| < WORD_LIMIT && RightLength(u.past.declared, |u.all|) {
      SmoothRun(START, steps, |u.all|);
      HandedWriterIsDecided(steps);
      EachDispatched(u.file.value);
    }
  }

  lemma EachDispatched(sys: WR.Sys)
    requires WR.Inv(sys) && sys.w.callback.None? && sys.discarded == multiset{}
    ensures sys.conts == multiset{} ==>
              forall id: FW.CallbackId | id < sys.next :: sys.dispatched[id] + sys.overwritten[id] == 1
  {
    forall id: FW.CallbackId | id < sys.next && sys.conts == multiset{}
      ensures sys.dispatched[id] + sys.overwritten[id] == 1
    {
      assert WR.Places(sys, id) == 1;
    }
  }

  // ---------- the end is always within reach ----------

  lemma {:induction false} RunConcat(u: Upload, first: seq<Step>, second: seq<Step>)
    ensures Run(u, first + second) == Run(Run(u, first), second)
    decreases |first|
  {
    if first == [] {
      assert first + second == second;
    } else {
      assert (first + second)[1..] == first[1..] + second;
      RunConcat(Apply(u, first[0]), first[1..], second);
    }
  }

  lemma RunOne(u: Upload, step: Step)
    ensures Run(u, [step]) == Apply(u, step)
  {
    assert [step][1..] == [];
    assert Run(Apply(u, step), []) == Apply(u, step);
  }

  /** What the announcement still has to do. */
  function Announcements(sys: WR.Sys, size: nat): nat {
    sys.conts[WR.ThenTake] + sys.conts[WR.ThenSetLength(size)]
  }

  ghost predicate Finishing(u: Upload) {
    Inv(u) && u.fin && !u.cancelled && u.mid == Updated && u.event.None?
  }

  lemma TakeSettles(sys: WR.Sys, io: FW.Io, size: nat)
    requires WR.ThenTake in sys.conts
    ensures Announcements(WR.Apply(sys, WR.Continue(WR.ThenTake, io)), size) < Announcements(sys, size)
  {
  }

  lemma LengthSettles(sys: WR.Sys, io: FW.Io, size: nat)
    requires WR.Inv(sys) && WR.ThenSetLength(size) in sys.conts
    ensures Announcements(WR.Apply(sys, WR.Continue(WR.ThenSetLength(size), io)), size) < Announcements(sys, size)
  {
    var rest := sys.(conts := sys.conts - multiset{WR.ThenSetLength(size)});
    WR.RemoveInv(sys, WR.ThenSetLength(size));
    OpEffect(rest, FW.SetLength(size), io);
  }

  lemma ContSettles(sys: WR.Sys, cont: WR.Cont, io: FW.Io, size: nat)
    requires WR.Inv(sys) && cont in sys.conts && !cont.ThenSettle? && (cont.ThenSetLength? ==> cont.length == size)
    ensures Announcements(WR.Apply(sys, WR.Continue(cont, io)), size) < Announcements(sys, size)
  {
    match cont
    case ThenTake => TakeSettles(sys, io, size);
    case ThenSetLength(_) => LengthSettles(sys, io, size);
    case _ =>
  }

  lemma SettlesFile(u: Upload, cont: WR.Cont, io: FW.Io)
    requires u.file.Some?
    ensures Apply(u, Settle(cont, io)) == u.(file := Some(WR.Apply(u.file.value, WR.Continue(cont, io))))
  {
  }

  lemma SettleOne(u: Upload, cont: WR.Cont)
    requires Inv(u) && u.file.Some? && cont in u.file.value.conts && !cont.ThenSettle?
    ensures var v := Apply(u, Settle(cont, WR.WILLING));
      && v == u.(file := v.file) && v.file.Some?
      && Announcements(v.file.value, |u.all|) < Announcements(u.file.value, |u.all|)
  {
    SettlesFile(u, cont, WR.WILLING);
    ContSettles(u.file.value, cont, WR.WILLING, |u.all|);
  }

  /** The announcement runs to its end and the event is handed out. */
  lemma {:induction false} CanHandOut(u: Upload) returns (more: seq<Step>)
    requires Finishing(u) && u.phase == Announced
    ensures Willing(more) && Run(u, more).event.Some?
    decreases if u.file.Some? then Announcements(u.file.value, |u.all|) else 0
  {
    if u.file.Some? && AnnouncementRunning(u.file.value) {
      var cont :| cont in u.file.value.conts && !cont.ThenSettle?;
      var settle := Settle(cont, WR.WILLING);
      SettleOne(u, cont);
      StepInv(u, settle);
      var rest := CanHandOut(Apply(u, settle));
      more := [settle] + rest;
      assert more[1..] == rest;
    } else {
      RunOne(u, HandOut);
      more := [HandOut];
    }
  }

  /** After FIN and header processing an upload that was not cancelled can always be handed out. */
  lemma {:induction false} UploadCanBeHandedOut(u: Upload) returns (more: seq<Step>)
    requires Finishing(u)
    ensures Willing(more) && Run(u, more).event.Some?
    decreases match u.phase case Receiving => 2 case Prefixed => 1 case _ => 0
  {
    if u.phase == Announced {
      more := CanHandOut(u);
    } else {
      var step := if u.phase == Receiving then FlushBody(WR.WILLING) else AnnounceSize;
      StepInv(u, step);
      var rest := UploadCanBeHandedOut(Apply(u, step));
      more := [step] + rest;
      assert more[1..] == rest;
    }
  }

  /** The file worker empties its queue. */
  lemma {:induction false} QueueCanDrain(u: Upload) returns (more: seq<Step>)
    requires Inv(u) && u.event.Some?
    ensures Willing(more)
    ensures var v := Run(u, more);
      v.queue == [] && v.event == u.event && v.all == u.all && v.past.declared == u.past.declared
    decreases |u.queue|
  {
    if u.queue == [] {
      more := [];
    } else {
      StepInv(u, Work(WR.WILLING));
      var rest := QueueCanDrain(Apply(u, Work(WR.WILLING)));
      more := [Work(WR.WILLING)] + rest;
      assert more[1..] == rest;
    }
  }

  /**
   * From every state of an unobstructed upload that saw FIN and its headers, a schedule hands it out whole: in
   * memory, or as a complete file exactly when one was wanted, available and not lost to a race.
   */
  lemma UnobstructedUploadCanComplete(steps: seq<Step>) returns (more: seq<Step>)
    requires Willing(steps)
    requires var u := Run(START, steps);
      && u.fin && !u.cancelled && u.mid == Updated && u.event.None?
      && |u.all| < WORD_LIMIT && RightLength(u.past.declared, |u.all|)
    ensures var (u, v) := (Run(START, steps), Run(START, steps + more));
      && v.event.Some? && v.all == u.all && v.queue == []
      && (v.past.stored == Some(InMemory) ==> v.event.value.body == u.all)
      && (v.past.wanted && !v.past.raced ==>
            v.file.Some? && v.file.value.w.canClose && v.file.value.w.failure.None? && v.file.value.w.disk == u.all)
  {
    var u := Run(START, steps);
    RunInv(START, steps);
    var handing := UploadCanBeHandedOut(u);
    var handed := Run(u, handing);
    RunInv(u, handing);
    var draining := QueueCanDrain(handed);
    more := handing + draining;
    RunGrows(u, handing);
    RunConcat(u, handing, draining);
    RunConcat(START, steps, more);
    RunInv(START, steps + more);
    WillingUploadCompletes(steps + more);
    WriterIsHandedUnlessRaced(steps + more);
    WriterIsHandedExactly(steps + more);
  }
}
