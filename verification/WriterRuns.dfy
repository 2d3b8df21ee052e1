/**
 * Whole runs of one writer shared by several threads. A locked region is one atomic step; what the
 * calling thread does after releasing the lock (settling, taking a callback, the second half of FIN)
 * is a continuation that any later step may interleave with.
 */
module WriterRuns {
  import opened Basics
  import opened FileWriter

  // ---------- refinement: an unfailed buffered file is a byte sequence ----------

  type Script = seq<(Op, Io)>

  function RunWriter(w: Writer, script: Script): Writer
    decreases |script|
  {
    if script == [] then w
    else RunWriter(Locked(w, script[0].0, script[0].1).w, script[1..])
  }

  function RunFile(f: File, script: Script): File
    decreases |script|
  {
    if script == [] then f else RunFile(FileStep(f, script[0].0), script[1..])
  }

  /**
   * Every script of writes, prefix insertions, flushes, length settings and registrations that ends
   * without a failure leaves exactly the bytes, length and completion of the plain sequence, however
   * the device split the buffered bytes between buffer and disk.
   */
  lemma {:induction false} WriterRefinesFile(w: Writer, script: Script)
    requires Sound(w)
    ensures Sound(RunWriter(w, script))
    ensures RunWriter(w, script).failure.None? ==>
              w.failure.None? && View(RunWriter(w, script)) == RunFile(View(w), script)
    decreases |script|
  {
    if script == [] {
    } else {
      var next := Locked(w, script[0].0, script[0].1).w;
      LockedCorrect(w, script[0].0, script[0].1);
      WriterRefinesFile(next, script[1..]);
    }
  }

  /** Completion is final: the disk holds the declared length and no later region changes a byte. */
  lemma {:induction false} CompleteFileNeverChanges(w: Writer, script: Script)
    requires Sound(w) && w.canClose
    ensures var end := RunWriter(w, script);
            && end.canClose && end.disk == w.disk && end.buffer == []
            && end.length == Some(|w.disk|)
            && (w.failure.Some? ==> end.failure == w.failure)
    decreases |script|
  {
    if script == [] {
    } else {
      LockedCorrect(w, script[0].0, script[0].1);
      CompleteFileNeverChanges(Locked(w, script[0].0, script[0].1).w, script[1..]);
    }
  }

  // ---------- interleaved threads ----------

  /** What a thread still has to do once it has released the lock. */
  datatype Cont =
    | ThenSettle(terminal: bool, callback: Option<CallbackId>)
    | ThenTake
    | ThenSetLength(length: nat)

  /**
   * The writer, its registry entry, the threads between lock and settlement, and where every
   * registered callback went. Registrations are numbered, so a callback is one registration.
   */
  datatype Sys = Sys(
    w: Writer,
    listed: bool,
    conts: multiset<Cont>,
    dispatched: multiset<CallbackId>,
    overwritten: multiset<CallbackId>,
    discarded: multiset<CallbackId>,
    next: CallbackId)

  function Initial(length: Option<nat>): Sys {
    Sys(NewWriter(length), true, multiset{}, multiset{}, multiset{}, multiset{}, 0)
  }

  datatype Step =
    | Call(op: Op, io: Io)
    | Finish(received: nat)
    | Continue(cont: Cont, io: Io)

  function Bag(id: Option<CallbackId>): multiset<CallbackId> {
    if id.Some? then multiset{id.value} else multiset{}
  }

  /** A registration receives the next number, whatever number the script wrote. */
  function Numbered(op: Op, next: CallbackId): Op {
    if op.Register? then Register(next) else op
  }

  /** The system after a thread ran `region` for `op` and released the lock. */
  function Post(s: Sys, op: Op, region: Region): Sys {
    s.(w := region.w,
       conts := s.conts + multiset{ThenSettle(region.outcome != Ready(false), region.taken)},
       overwritten := s.overwritten + if op.Register? then Bag(s.w.callback) else multiset{},
       discarded := s.discarded + Bag(region.dropped),
       next := if op.Register? then s.next + 1 else s.next)
  }

  function ApplyOp(s: Sys, op: Op, io: Io): Sys {
    var numbered := Numbered(op, s.next);
    Post(s, numbered, Locked(s.w, numbered, io))
  }

  function Apply(s: Sys, step: Step): Sys {
    match step
    case Call(op, io) => ApplyOp(s, op, io)
    case Finish(received) =>
      s.(w := FinishCheck(s.w, received),
         conts := s.conts + multiset{if FinishMismatch(s.w, received) then ThenTake else ThenSetLength(received)})
    case Continue(cont, io) =>
      if cont !in s.conts then s
      else
        var rest := s.(conts := s.conts - multiset{cont});
        match cont
        case ThenSettle(terminal, callback) =>
          rest.(listed := s.listed && !terminal, dispatched := s.dispatched + Bag(callback))
        case ThenTake =>
          rest.(w := s.w.(callback := None), discarded := s.discarded + Bag(s.w.callback),
                conts := rest.conts + multiset{ThenSettle(true, None)})
        case ThenSetLength(length) => ApplyOp(rest, SetLength(length), io)
  }

  function Run(s: Sys, steps: seq<Step>): Sys
    decreases |steps|
  {
    if steps == [] then s else Run(Apply(s, steps[0]), steps[1..])
  }

  /** The number of places in which callback `id` currently is. */
  function Places(s: Sys, id: CallbackId): nat {
    (if s.w.callback == Some(id) then 1 else 0)
    + s.conts[ThenSettle(true, Some(id))] + s.conts[ThenSettle(false, Some(id))]
    + s.dispatched[id] + s.overwritten[id] + s.discarded[id]
  }

  ghost predicate SettlementDue(s: Sys) {
    exists cont :: cont in s.conts && cont.ThenSettle? && cont.terminal
  }

  ghost predicate Inv(s: Sys) {
    && Sound(s.w)
    // Every registration is in exactly one place; numbers not yet given out are nowhere.
    && (forall id: CallbackId :: Places(s, id) == if id < s.next then 1 else 0)
    // Taken for dispatch only from a complete file.
    && (forall cont :: cont in s.conts && cont.ThenSettle? && cont.callback.Some? ==> s.w.canClose)
    && (s.dispatched != multiset{} ==> s.w.canClose)
    // A stored callback waits on a live writer, except in the window of a failed FIN.
    && (s.w.callback.Some? && s.w.Terminal() ==> ThenTake in s.conts)
    && (ThenTake in s.conts ==> s.w.failure.Some?)
    // A terminal writer has left the registry once its settlement ran.
    && (s.w.Terminal() && s.listed ==> ThenTake in s.conts || SettlementDue(s))
    && (SettlementDue(s) ==> s.w.Terminal())
    && (!s.listed ==> s.w.Terminal())
  }

  lemma PostInv(s: Sys, op: Op, region: Region)
    requires Inv(s) && Faithful(s.w, op, region)
    requires op.Register? ==> op.id == s.next
    ensures Inv(Post(s, op, region))
  {
    PostPlaces(s, op, region);
    PostSettlement(s, op, region);
    PostRest(s, op, region);
  }

  /** A settlement stays due while its continuation waits, and a terminal region leaves one behind. */
  lemma PostSettlement(s: Sys, op: Op, region: Region)
    requires Inv(s) && Faithful(s.w, op, region)
    ensures SettlementDue(Post(s, op, region)) <==> SettlementDue(s) || region.outcome != Ready(false)
  {
    var t := Post(s, op, region);
    var added := ThenSettle(region.outcome != Ready(false), region.taken);
    assert added in t.conts;
    if SettlementDue(s) {
      var due :| due in s.conts && due.ThenSettle? && due.terminal;
      assert due in t.conts;
    }
  }

  /** The part of the invariant that speaks of the continuations and the stored callback. */
  lemma PostRest(s: Sys, op: Op, region: Region)
    requires Inv(s) && Faithful(s.w, op, region)
    ensures var t := Post(s, op, region);
            && (forall cont :: cont in t.conts && cont.ThenSettle? && cont.callback.Some? ==> t.w.canClose)
            && (t.w.callback.Some? && t.w.Terminal() ==> ThenTake in t.conts)
            && (ThenTake in t.conts <==> ThenTake in s.conts)
  {
  }

  lemma PostPlaces(s: Sys, op: Op, region: Region)
    requires Inv(s) && Faithful(s.w, op, region)
    requires op.Register? ==> op.id == s.next
    ensures var t := Post(s, op, region);
            forall id: CallbackId :: Places(t, id) == if id < t.next then 1 else 0
  {
    var t := Post(s, op, region);
    forall id: CallbackId
      ensures Places(t, id) == if id < t.next then 1 else 0
    {
      PostMoves(s, op, region, id);
      assert Places(s, id) == if id < s.next then 1 else 0;
    }
  }

  /** A region only moves callbacks between places, and adds the one it registers. */
  lemma PostMoves(s: Sys, op: Op, region: Region, id: CallbackId)
    requires region.w.callback == (if region.outcome == Ready(false) then Stored(s.w, op) else None)
    requires region.taken == (if region.outcome == Ready(true) then Stored(s.w, op) else None)
    requires region.dropped == (if region.outcome.Failed? then Stored(s.w, op) else None)
    ensures Places(Post(s, op, region), id) == Places(s, id) + if op == Register(id) then 1 else 0
  {
    var t := Post(s, op, region);
    var terminal := region.outcome != Ready(false);
    assert t.conts[ThenSettle(true, Some(id))] + t.conts[ThenSettle(false, Some(id))]
        == s.conts[ThenSettle(true, Some(id))] + s.conts[ThenSettle(false, Some(id))]
           + if region.taken == Some(id) then 1 else 0;
    assert t.discarded[id] == s.discarded[id] + if region.dropped == Some(id) then 1 else 0;
    assert t.overwritten[id]
        == s.overwritten[id] + if op.Register? && s.w.callback == Some(id) then 1 else 0;
  }

  lemma ApplyOpInv(s: Sys, op: Op, io: Io)
    requires Inv(s)
    ensures Inv(ApplyOp(s, op, io))
  {
    var numbered := Numbered(op, s.next);
    LockedCorrect(s.w, numbered, io);
    PostInv(s, numbered, Locked(s.w, numbered, io));
  }

  lemma ApplyInv(s: Sys, step: Step)
    requires Inv(s)
    ensures Inv(Apply(s, step))
  {
    var t := Apply(s, step);
    match step
    case Call(op, io) => ApplyOpInv(s, op, io);
    case Finish(received) =>
      FinishCheckSound(s.w, received);
      forall id: CallbackId
        ensures Places(t, id) == if id < t.next then 1 else 0
      {
        assert Places(s, id) == if id < s.next then 1 else 0;
      }
      if SettlementDue(s) {
        var due :| due in s.conts && due.ThenSettle? && due.terminal;
        assert due in t.conts;
      }
    case Continue(cont, io) =>
      if cont in s.conts {
        ContinueInv(s, cont, io);
      }
  }

  /** Removing a continuation that holds no callback changes no place. */
  lemma RemoveInv(s: Sys, cont: Cont)
    requires Inv(s) && cont in s.conts && cont.ThenSetLength?
    ensures Inv(s.(conts := s.conts - multiset{cont}))
  {
    var t := s.(conts := s.conts - multiset{cont});
    forall id: CallbackId
      ensures Places(t, id) == if id < t.next then 1 else 0
    {
      assert Places(s, id) == if id < s.next then 1 else 0;
    }
    if SettlementDue(s) {
      var due :| due in s.conts && due.ThenSettle? && due.terminal;
      assert due in t.conts;
    }
  }

  lemma TakeMoves(s: Sys, io: Io, id: CallbackId)
    requires ThenTake in s.conts
    ensures Places(Apply(s, Continue(ThenTake, io)), id) == Places(s, id)
  {
    var t := Apply(s, Continue(ThenTake, io));
    assert t.discarded[id] == s.discarded[id] + if s.w.callback == Some(id) then 1 else 0;
    assert forall other: Cont | other.ThenSettle? && other.callback.Some? :: t.conts[other] == s.conts[other];
  }

  lemma TakeInv(s: Sys, io: Io)
    requires Inv(s) && ThenTake in s.conts
    ensures Inv(Apply(s, Continue(ThenTake, io)))
  {
    var t := Apply(s, Continue(ThenTake, io));
    assert ThenSettle(true, None) in t.conts;
    assert s.w.failure.Some? && t.w == s.w.(callback := None);
    forall id: CallbackId
      ensures Places(t, id) == if id < t.next then 1 else 0
    {
      TakeMoves(s, io, id);
    }
  }

  lemma SettleMoves(s: Sys, cont: Cont, io: Io, id: CallbackId)
    requires cont in s.conts && cont.ThenSettle?
    ensures Places(Apply(s, Continue(cont, io)), id) == Places(s, id)
  {
    var t := Apply(s, Continue(cont, io));
    var here := cont.callback == Some(id);
    assert t.dispatched[id] == s.dispatched[id] + if here then 1 else 0;
    assert t.conts[ThenSettle(true, Some(id))] + t.conts[ThenSettle(false, Some(id))]
        == s.conts[ThenSettle(true, Some(id))] + s.conts[ThenSettle(false, Some(id))] - if here then 1 else 0;
  }

  lemma SettleInv(s: Sys, cont: Cont, io: Io)
    requires Inv(s) && cont in s.conts && cont.ThenSettle?
    ensures Inv(Apply(s, Continue(cont, io)))
  {
    var t := Apply(s, Continue(cont, io));
    forall id: CallbackId
      ensures Places(t, id) == if id < t.next then 1 else 0
    {
      SettleMoves(s, cont, io, id);
    }
    if cont.terminal {
      assert SettlementDue(s);
    } else if SettlementDue(s) {
      var due :| due in s.conts && due.ThenSettle? && due.terminal;
      assert due in t.conts;
    }
  }

  lemma ContinueInv(s: Sys, cont: Cont, io: Io)
    requires Inv(s) && cont in s.conts
    ensures Inv(Apply(s, Continue(cont, io)))
  {
    match cont
    case ThenSettle(_, _) => SettleInv(s, cont, io);
    case ThenTake => TakeInv(s, io);
    case ThenSetLength(length) =>
      RemoveInv(s, cont);
      ApplyOpInv(s.(conts := s.conts - multiset{cont}), SetLength(length), io);
  }

  lemma {:induction false} RunInv(s: Sys, steps: seq<Step>)
    requires Inv(s)
    ensures Inv(Run(s, steps))
    decreases |steps|
  {
    if steps == [] {
    } else {
      ApplyInv(s, steps[0]);
      RunInv(Apply(s, steps[0]), steps[1..]);
    }
  }

  lemma InitialInv(length: Option<nat>)
    ensures Inv(Initial(length))
  {
  }

  /**
   * Callbacks are neither lost nor duplicated in any interleaving: each registration is stored, in a
   * settling thread's hand, dispatched, overwritten by a later registration, or discarded, and in
   * exactly one of these; none is dispatched unless the file is complete on disk.
   */
  lemma CallbacksConserved(length: Option<nat>, steps: seq<Step>)
    ensures var s := Run(Initial(length), steps);
            && (forall id: CallbackId :: Places(s, id) == if id < s.next then 1 else 0)
            && (forall id: CallbackId :: s.dispatched[id] <= 1)
            && (s.dispatched != multiset{} ==>
                  s.w.canClose && s.w.buffer == [] && s.w.length == Some(|s.w.disk|))
  {
    InitialInv(length);
    RunInv(Initial(length), steps);
    var s := Run(Initial(length), steps);
    forall id: CallbackId
      ensures s.dispatched[id] <= 1
    {
      assert Places(s, id) == if id < s.next then 1 else 0;
    }
  }

  /**
   * Outside the window of a failed FIN a stored callback implies a writer that is still live, and once
   * no thread is between lock and settlement a terminal writer is out of the registry, and conversely.
   */
  lemma QuietWriterIsSettled(length: Option<nat>, steps: seq<Step>)
    ensures var s := Run(Initial(length), steps);
            && (s.w.callback.Some? && ThenTake !in s.conts ==> !s.w.Terminal())
            && (s.conts == multiset{} ==> (s.listed <==> !s.w.Terminal()))
  {
    InitialInv(length);
    RunInv(Initial(length), steps);
  }

  /** The first failure survives every later step of every thread, and so do a complete file's bytes. */
  lemma {:induction false} FirstFailureIsKept(s: Sys, steps: seq<Step>)
    requires Inv(s)
    ensures Kept(s.w, Run(s, steps).w)
    decreases |steps|
  {
    if steps == [] {
    } else {
      var t := Apply(s, steps[0]);
      ApplyInv(s, steps[0]);
      ApplyKeeps(s, steps[0]);
      FirstFailureIsKept(t, steps[1..]);
    }
  }

  lemma ApplyKeeps(s: Sys, step: Step)
    requires Inv(s)
    ensures Kept(s.w, Apply(s, step).w)
  {
    match step
    case Call(op, io) => LockedCorrect(s.w, Numbered(op, s.next), io);
    case Finish(received) =>
    case Continue(cont, io) =>
      if cont.ThenSetLength? {
        LockedCorrect(s.w, SetLength(cont.length), io);
      }
  }

  /**
   * A complete writer can still fail afterwards: FIN with another size records a failure. The bytes
   * stay, but a callback registered from then on is discarded.
   */
  lemma CompleteWriterCanFailLater()
    ensures var done := Apply(Initial(Some(0)), Call(Flush, WILLING));
            var late := Apply(Apply(done, Finish(2)), Call(Register(0), WILLING));
            && done.w.canClose && done.w.failure.None?
            && late.w.canClose && late.w.failure == Some(LengthMismatch)
            && late.discarded == multiset{0} && late.dispatched == multiset{}
  {
    var done := Apply(Initial(Some(0)), Call(Flush, WILLING));
    assert done.w == NewWriter(Some(0)).(canClose := true);
    var failed := Apply(done, Finish(2));
    var late := Apply(failed, Call(Register(0), WILLING));
    assert late == Post(failed, Register(0), Locked(failed.w, Register(0), WILLING));
  }

  /** That is the whole of it: a complete writer fails exactly on a refused flush or on a FIN of another size. */
  lemma CompleteWriterFailsExactly(w: Writer, op: Op, io: Io, received: nat)
    requires Sound(w) && w.canClose && w.failure.None?
    ensures Locked(w, op, io).w.failure.Some? <==> op.Flush? && !io.flush.ok
    ensures FinishCheck(w, received).failure.Some? <==> received != |w.disk|
  {
    LockedCorrect(w, op, io);
  }

  /** A device that refuses nothing. */
  const WILLING: Io := Io(Push(true, 0, 0), Push(true, 0, 0), Push(true, 0, 0), true, true)
}
