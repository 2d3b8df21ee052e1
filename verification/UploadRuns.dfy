/**
 * Whole uploads: the network thread delivering packets and FIN, header processing switching the entry
 * from memory to file at any moment, the file worker serving its queue, the thread that builds the
 * finished event, and the application using the writer it was handed, in every interleaving.
 */
module UploadRuns {
  import opened Basics
  import FW = FileWriter
  import WR = WriterRuns
  import opened RequestTable

  /** Header processing: not started, table looked up, creating an entry, done. */
  datatype Mid = Waiting | Found(present: bool) | Creating | Updated

  /** The finished event: not started, prefix flushed, size announced, handed to the handler. */
  datatype Phase = Receiving | Prefixed | Announced | Handed

  /**
   * What happened. Of header processing: the storage mode it left in the entry (`stored`), whether a file was
   * created (`created`) or at least wanted and available (`wanted`), whether a packet had created the entry
   * between the lookup and the insertion (`raced`), whether the entry got a listener (`listens`), what had
   * arrived by then (`early`) and which length the headers declared (`declared`). Of the listener: the packets
   * it was told of (`announced`).
   */
  datatype Past = Past(
    stored: Option<Mode>,
    created: bool,
    wanted: bool,
    raced: bool,
    listens: bool,
    early: Bytes,
    declared: Option<nat>,
    announced: seq<Bytes>)

  /**
   * `all` is the concatenation of every packet in arrival order. `file` is the writer attached to the
   * entry and later to the event; `queue` holds its writes still waiting at the file worker.
   */
  datatype Upload = Upload(
    entry: Option<Entry>,
    file: Option<WR.Sys>,
    queue: seq<Bytes>,
    all: Bytes,
    fin: bool,
    cancelled: bool,
    mid: Mid,
    phase: Phase,
    event: Option<Finished>,
    past: Past)

  const START: Upload :=
    Upload(None, None, [], [], false, false, Waiting, Receiving, None,
           Past(None, false, false, false, false, [], None, []))

  datatype Step =
    | Data(packet: Bytes, io: FW.Io)
    | Look
    | Update(mode: Option<Mode>, hasFile: bool, length: Option<nat>, listens: bool)
    | Fin
    | Cancel
    | FlushBody(io: FW.Io)
    | AnnounceSize
    | HandOut
    | Work(io: FW.Io)
    | Use(op: FW.Op, io: FW.Io)
    | Settle(cont: WR.Cont, io: FW.Io)

  /** A request's packets stop at FIN or at its cancellation. */
  function ApplyData(u: Upload, packet: Bytes, io: FW.Io): Upload {
    if u.fin || u.cancelled then u
    else
      var entry := if u.entry.Some? then u.entry.value else EARLY_ENTRY;
      var effect := WritePacket(entry, packet);
      u.(entry := Some(effect.entry),
         file := if effect.prefix.Some? && u.file.Some?
                 then Some(WR.ApplyOp(u.file.value, FW.Prefix(effect.prefix.value), io)) else u.file,
         queue := if effect.queued.Some? then u.queue + [effect.queued.value] else u.queue,
         all := u.all + packet,
         past := u.past.(
           raced := u.past.raced || (u.entry.None? && (u.mid == Found(false) || u.mid == Creating)),
           announced := u.past.announced + if u.past.listens && TellsListener(entry.mode) then [packet] else []))
  }

  function Attached(mode: Option<Mode>, hasFile: bool, length: Option<nat>): Option<WR.Sys> {
    if mode == Some(OnDisk) && hasFile then Some(WR.Initial(length)) else None
  }

  /** An entry that was there first keeps its storage, and has no listener; it only becomes named. */
  function Named(u: Upload, mode: Option<Mode>, hasFile: bool): Upload
    requires u.entry.Some?
  {
    u.(mid := Updated, entry := Some(u.entry.value.(named := true)),
       past := u.past.(stored := u.entry.value.mode, wanted := mode == Some(OnDisk) && hasFile, early := u.all))
  }

  /** Header processing stores the route's mode and listener, and its file if one is wanted and could be created. */
  function Stored(
    u: Upload, entry: Entry, mode: Option<Mode>, hasFile: bool, length: Option<nat>, listens: bool): Upload
  {
    var filed := mode == Some(OnDisk) && hasFile;
    u.(mid := Updated, entry := Some(entry), file := Attached(mode, hasFile, length),
       past := u.past.(
         stored := mode, created := filed, wanted := filed, listens := listens, early := u.all, declared := length))
  }

  /** Completing an entry replaces its mode and file; creating one never overwrites a raced entry. */
  function ApplyUpdate(u: Upload, mode: Option<Mode>, hasFile: bool, length: Option<nat>, listens: bool): Upload {
    match u.mid
    case Found(true) =>
      if u.entry.None? then u.(mid := Updated)
      else Stored(u, Completed(u.entry.value, mode, hasFile), mode, hasFile, length, listens)
    case Found(false) => if u.entry.Some? then Named(u, mode, hasFile) else u.(mid := Creating)
    case Creating =>
      if u.entry.Some? then Named(u, mode, hasFile)
      else Stored(u, FreshEntry(mode, hasFile), mode, hasFile, length, listens)
    case _ => u
  }

  predicate MayFinish(u: Upload) {
    u.phase == Receiving && u.fin && !u.cancelled && u.mid == Updated && u.entry.Some?
  }

  /** An unnamed entry builds no event; otherwise the in-memory bytes of a file entry go first. */
  function ApplyFlushBody(u: Upload, io: FW.Io): Upload {
    if !MayFinish(u) then u
    else
      var entry := u.entry.value;
      var effect := if entry.mode == Some(OnDisk) then FlushAndPrefix(entry) else Effect(entry, None, None);
      var file := if effect.prefix.Some? && u.file.Some?
                  then Some(WR.ApplyOp(u.file.value, FW.Prefix(effect.prefix.value), io)) else u.file;
      if entry.named then u.(entry := Some(effect.entry), file := file, phase := Prefixed)
      else u.(entry := None, file := file, phase := Handed)
  }

  function ApplyAnnounce(u: Upload): Upload {
    if u.phase != Prefixed || u.entry.None? then u
    else if u.entry.value.writer && u.file.Some? then
      u.(file := Some(WR.Apply(u.file.value, WR.Finish(u.entry.value.size))), phase := Announced)
    else u.(phase := Announced)
  }

  ghost predicate AnnouncementRunning(sys: WR.Sys) {
    exists cont :: cont in sys.conts && !cont.ThenSettle?
  }

  /** The event leaves only when the size announcement has run to its end. */
  ghost function ApplyHandOut(u: Upload): Upload {
    if u.phase != Announced || u.entry.None? then u
    else if u.file.Some? && AnnouncementRunning(u.file.value) then u
    else
      var entry := u.entry.value;
      u.(entry := None, phase := Handed,
         event := Some(Finished(entry.mode, entry.body, entry.size, entry.writer)))
  }

  /** The operations a route handler may use on the writer of its event. */
  predicate Allowed(op: FW.Op) {
    op.Register? || op.Flush? || op.SetLength?
  }

  ghost function Apply(u: Upload, step: Step): Upload {
    match step
    case Data(packet, io) => ApplyData(u, packet, io)
    case Look => if u.mid == Waiting then u.(mid := Found(u.entry.Some?)) else u
    case Update(mode, hasFile, length, listens) => ApplyUpdate(u, mode, hasFile, length, listens)
    case Fin => if u.cancelled then u else u.(fin := true)
    case Cancel => if u.phase == Receiving then u.(cancelled := true, entry := None) else u
    case FlushBody(io) => ApplyFlushBody(u, io)
    case AnnounceSize => ApplyAnnounce(u)
    case HandOut => ApplyHandOut(u)
    case Work(io) =>
      if u.queue == [] || u.file.None? then u
      else u.(queue := u.queue[1..], file := Some(WR.ApplyOp(u.file.value, FW.Write(u.queue[0]), io)))
    case Use(op, io) =>
      if u.event.None? || !u.event.value.writer || u.file.None? || !Allowed(op) then u
      else u.(file := Some(WR.ApplyOp(u.file.value, op, io)))
    case Settle(cont, io) =>
      if u.file.None? then u else u.(file := Some(WR.Apply(u.file.value, WR.Continue(cont, io))))
  }

  ghost function Run(u: Upload, steps: seq<Step>): Upload
    decreases |steps|
  {
    if steps == [] then u else Run(Apply(u, steps[0]), steps[1..])
  }

  // ---------- the invariant ----------

  /** Some callback was taken for dispatch or already dispatched. */
  ghost predicate Promised(sys: WR.Sys) {
    || sys.dispatched != multiset{}
    || exists cont :: cont in sys.conts && cont.ThenSettle? && cont.callback.Some?
  }

  /**
   * Every received byte is on its way, in order: written, queued, or in memory. The only exception is
   * a file that completed at a declared length smaller than what arrived, where a packet was refused.
   */
  predicate InOrder(w: FW.Writer, queue: seq<Bytes>, body: Bytes, all: Bytes) {
    && (w.failure.None? ==>
          || all == w.Content() + Flatten(queue) + body
          || (w.canClose && |w.disk| < |all|))
    && (body != [] ==> w.failure.None? && !w.canClose && w.Content() == [] && queue == [] && all == body)
  }

  /** The size is announced: any excess is already a failure, and the length is the received size. */
  predicate Exact(w: FW.Writer, queue: seq<Bytes>, all: Bytes) {
    w.failure.None? ==> all == w.Content() + Flatten(queue) && w.length == Some(|all|)
                        && (w.Content() == all ==> w.canClose)
  }

  ghost predicate FileInv(u: Upload, sys: WR.Sys) {
    && WR.Inv(sys)
    && (Promised(sys) ==> u.phase == Handed && sys.w.canClose && sys.w.disk == u.all)
    && (u.event.None? ==> sys.next == 0)
    && (AnnouncementRunning(sys) ==> u.phase == Announced)
    && (forall cont :: cont in sys.conts && cont.ThenSetLength? ==> cont.length == |u.all|)
  }

  ghost predicate LiveInv(u: Upload, sys: WR.Sys) {
    match u.phase
    case Receiving => u.entry.Some? && InOrder(sys.w, u.queue, u.entry.value.body, u.all)
    case Prefixed => InOrder(sys.w, u.queue, [], u.all)
    case Announced => Announcing(sys, u.queue, u.all)
    case Handed => Exact(sys.w, u.queue, u.all)
  }

  /** The size is being announced: already exact, or about to be given the received size. */
  ghost predicate Announcing(sys: WR.Sys, queue: seq<Bytes>, all: Bytes) {
    || Exact(sys.w, queue, all)
    || (&& WR.ThenSetLength(|all|) in sys.conts
        && (sys.w.failure.None? ==>
              && all == sys.w.Content() + Flatten(queue)
              && (sys.w.length.Some? ==> sys.w.length == Some(|all|))))
  }

  predicate EntryInv(u: Upload, entry: Entry) {
    && (entry.writer <==> u.file.Some?)
    && (entry.writer ==> entry.mode == Some(OnDisk) && entry.size == |u.all|)
    && (entry.mode == Some(InMemory) ==> entry.body == u.all && entry.size == |u.all|)
    && (u.mid == Updated ==> entry.named && entry.mode == u.past.stored)
    && (entry.writer <==> u.past.created)
    && (u.mid != Updated ==> entry.mode == Some(InMemory))
    && (u.phase != Receiving && entry.mode == Some(OnDisk) ==> entry.body == [])
  }

  predicate EventInv(u: Upload, event: Finished) {
    && u.phase == Handed
    && (event.writer <==> u.file.Some?)
    && event.mode == u.past.stored && (event.writer <==> u.past.created)
    && (event.writer ==> event.mode == Some(OnDisk) && event.size == |u.all|)
    && (event.mode == Some(InMemory) ==> event.body == u.all && event.size == |u.all|)
    && (event.mode == Some(OnDisk) ==> event.body == [])
  }

  ghost predicate Inv(u: Upload) {
    && (u.file.None? ==> u.queue == [])
    && (u.file.Some? ==> FileInv(u, u.file.value))
    && (u.mid != Updated ==> u.file.None? && u.phase == Receiving)
    && (u.phase != Receiving ==> u.fin && !u.cancelled)
    && (u.mid != Updated ==> !u.past.created)
    && (u.event.Some? ==> EventInv(u, u.event.value))
    && (!u.cancelled ==>
          && (u.entry.Some? ==> u.phase != Handed && EntryInv(u, u.entry.value))
          && (u.entry.None? ==> if u.phase == Receiving then u.all == [] && u.mid != Updated else u.event.Some?)
          && (u.mid == Found(true) ==> u.entry.Some?)
          && (u.file.Some? ==> LiveInv(u, u.file.value)))
  }

  // ---------- one step ----------

  /** Until a callback is registered there is nothing to promise. */
  lemma NothingRegistered(sys: WR.Sys)
    requires WR.Inv(sys) && sys.next == 0
    ensures !Promised(sys) && sys.w.callback.None?
  {
    forall id: FW.CallbackId
      ensures WR.Places(sys, id) == 0
    {
      assert WR.Places(sys, id) == if id < sys.next then 1 else 0;
    }
    if sys.w.callback.Some? {
      assert WR.Places(sys, sys.w.callback.value) == 0;
    }
    forall id
      ensures id !in sys.dispatched
    {
      assert WR.Places(sys, id) == 0;
    }
    assert sys.dispatched == multiset{};
    forall id, terminal
      ensures WR.ThenSettle(terminal, Some(id)) !in sys.conts
    {
      assert WR.Places(sys, id) == 0;
    }
    forall cont | cont in sys.conts && cont.ThenSettle?
      ensures cont.callback.None?
    {
      assert cont == WR.ThenSettle(cont.terminal, cont.callback);
    }
  }

  /** What one locked region on the file changes, as the upload sees it. */
  lemma OpEffect(sys: WR.Sys, op: FW.Op, io: FW.Io)
    requires WR.Inv(sys)
    ensures var t := WR.ApplyOp(sys, op, io);
            && WR.Inv(t) && FW.Kept(sys.w, t.w)
            && (t.w.failure.None? ==> sys.w.failure.None?
                                      && FW.View(t.w) == FW.FileStep(FW.View(sys.w), WR.Numbered(op, sys.next)))
            && (Promised(t) ==> Promised(sys) || (t.w.canClose && t.w.failure.None?))
            && (forall cont: WR.Cont :: !cont.ThenSettle? ==> t.conts[cont] == sys.conts[cont])
            && t.next == sys.next + if op.Register? then 1 else 0
  {
    WR.ApplyOpInv(sys, op, io);
    FW.LockedCorrect(sys.w, WR.Numbered(op, sys.next), io);
    var t := WR.ApplyOp(sys, op, io);
    if Promised(t) && !Promised(sys) {
      var cont :| cont in t.conts && cont.ThenSettle? && cont.callback.Some?;
      assert cont !in sys.conts;
    }
  }

  lemma FileInvAfterOp(u: Upload, op: FW.Op, io: FW.Io, v: Upload)
    requires u.file.Some? && FileInv(u, u.file.value)
    requires v.file == Some(WR.ApplyOp(u.file.value, op, io))
    requires v.phase == u.phase && v.event == u.event && (op.Register? ==> u.event.Some?)
    requires v.all == u.all || u.phase == Receiving
    requires v.phase == Handed ==> Exact(v.file.value.w, v.queue, v.all)
    requires u.event.Some? ==> u.phase == Handed
    ensures FileInv(v, v.file.value)
  {
    var sys, t := u.file.value, v.file.value;
    OpEffect(sys, op, io);
    if AnnouncementRunning(t) {
      var cont :| cont in t.conts && !cont.ThenSettle?;
      assert cont in sys.conts;
    }
    forall cont | cont in t.conts && cont.ThenSetLength?
      ensures cont.length == |v.all|
    {
      assert cont in sys.conts;
    }
    if Promised(t) {
      if u.event.None? {
        NothingRegistered(t);
      } else if !Promised(sys) {
        ExactComplete(t.w, v.queue, v.all);
      }
    }
  }

  /** A complete, unfailed writer of exact length has every received byte on disk. */
  lemma ExactComplete(w: FW.Writer, queue: seq<Bytes>, all: Bytes)
    requires FW.Sound(w) && Exact(w, queue, all) && w.canClose && w.failure.None?
    ensures w.disk == all && Flatten(queue) == []
  {
    assert w.Content() == w.disk;
    assert |all| == |w.disk| + |Flatten(queue)|;
  }

  lemma DataInv(u: Upload, packet: Bytes, io: FW.Io)
    requires Inv(u) && !u.fin && !u.cancelled
    ensures Inv(ApplyData(u, packet, io))
  {
    var v := ApplyData(u, packet, io);
    if u.file.Some? {
      DataFileInv(u, packet, io);
      assert EntryInv(v, v.entry.value);
    } else {
      assert u.entry.None? ==> u.all + packet == packet;
    }
  }

  /** The kept bytes are put before the file's when the first packet after the headers comes. */
  lemma DataPrefixInv(u: Upload, packet: Bytes, io: FW.Io)
    requires Inv(u) && !u.fin && !u.cancelled && u.file.Some? && u.entry.value.body != []
    ensures var v := ApplyData(u, packet, io);
            v.file.Some? && FileInv(v, v.file.value) && LiveInv(v, v.file.value)
  {
    assert u.phase == Receiving && u.entry.value.writer;
    OpEffect(u.file.value, FW.Prefix(u.entry.value.body), io);
    FileInvAfterOp(u, FW.Prefix(u.entry.value.body), io, ApplyData(u, packet, io));
    DataPrefixLive(u, packet, io);
  }

  lemma PrefixFills(sys: WR.Sys, body: Bytes, io: FW.Io)
    requires WR.Inv(sys) && sys.w.failure.None? && !sys.w.canClose && sys.w.Content() == []
    ensures var w := WR.ApplyOp(sys, FW.Prefix(body), io).w; w.failure.None? ==> w.Content() == body
  {
    OpEffect(sys, FW.Prefix(body), io);
    assert body + [] == body;
  }

  /** Once the kept bytes are the file's, the packet queued behind them is the only one on its way. */
  lemma PrefixedInOrder(w: FW.Writer, body: Bytes, packet: Bytes)
    requires w.failure.None? ==> w.Content() == body
    ensures InOrder(w, [packet], [], body + packet)
  {
    assert Flatten([packet]) == packet + Flatten([]);
    assert body + packet == body + Flatten([packet]) + [];
  }

  lemma DataPrefixStep(u: Upload, packet: Bytes, io: FW.Io)
    requires Inv(u) && !u.fin && !u.cancelled && u.file.Some? && u.entry.value.body != []
    ensures var (v, body) := (ApplyData(u, packet, io), u.entry.value.body);
            && u.phase == v.phase == Receiving && v.all == body + packet && v.queue == [packet]
            && v.entry.Some? && v.entry.value.body == []
            && v.file == Some(WR.ApplyOp(u.file.value, FW.Prefix(body), io))
  {
    assert u.entry.value.writer;
  }

  lemma DataPrefixLive(u: Upload, packet: Bytes, io: FW.Io)
    requires Inv(u) && !u.fin && !u.cancelled && u.file.Some? && u.entry.value.body != []
    ensures var v := ApplyData(u, packet, io); LiveInv(v, v.file.value)
  {
    var (sys, body) := (u.file.value, u.entry.value.body);
    DataPrefixStep(u, packet, io);
    PrefixFills(sys, body, io);
    PrefixedInOrder(WR.ApplyOp(sys, FW.Prefix(body), io).w, body, packet);
  }

  lemma QueuedInOrder(w: FW.Writer, queue: seq<Bytes>, all: Bytes, packet: Bytes)
    requires InOrder(w, queue, [], all)
    ensures InOrder(w, queue + [packet], [], all + packet)
  {
    FlattenSnoc(queue, packet);
    assert w.Content() + Flatten(queue) + [] + packet == w.Content() + (Flatten(queue) + packet) + [];
  }

  lemma DataQueuedInv(u: Upload, packet: Bytes, io: FW.Io)
    requires Inv(u) && !u.fin && !u.cancelled && u.file.Some? && u.entry.value.body == []
    ensures var v := ApplyData(u, packet, io);
            v.file.Some? && FileInv(v, v.file.value) && LiveInv(v, v.file.value)
  {
    var sys := u.file.value;
    assert ApplyData(u, packet, io).file == u.file;
    NothingRegistered(sys);
    assert !AnnouncementRunning(sys);
    QueuedInOrder(sys.w, u.queue, u.all, packet);
  }

  lemma DataFileInv(u: Upload, packet: Bytes, io: FW.Io)
    requires Inv(u) && !u.fin && !u.cancelled && u.file.Some?
    ensures var v := ApplyData(u, packet, io);
            v.file.Some? && FileInv(v, v.file.value) && LiveInv(v, v.file.value)
  {
    assert u.phase == Receiving && u.entry.value.writer;
    if u.entry.value.body != [] {
      DataPrefixInv(u, packet, io);
    } else {
      DataQueuedInv(u, packet, io);
    }
  }

  /** A new file is empty: what was received is still in memory. */
  lemma NewFileInv(u: Upload, length: Option<nat>)
    requires u.event.None? && u.phase == Receiving && u.queue == [] && u.file == Some(WR.Initial(length))
    ensures FileInv(u, u.file.value)
    ensures u.entry.Some? && u.entry.value.body == u.all ==> LiveInv(u, u.file.value)
  {
    WR.InitialInv(length);
    assert u.file.value.w.Content() == [] && Flatten([]) == [];
  }

  lemma StoredInv(
    u: Upload, entry: Entry, mode: Option<Mode>, hasFile: bool, length: Option<nat>, listens: bool)
    requires Inv(u) && u.mid != Updated && u.event.None?
    requires entry.named && entry.mode == mode && (entry.writer <==> mode == Some(OnDisk) && hasFile)
    requires !u.cancelled ==> entry.body == u.all && entry.size == |u.all|
    ensures Inv(Stored(u, entry, mode, hasFile, length, listens))
  {
    if mode == Some(OnDisk) && hasFile {
      NewFileInv(Stored(u, entry, mode, hasFile, length, listens), length);
    }
  }

  lemma NamedInv(u: Upload, mode: Option<Mode>, hasFile: bool)
    requires Inv(u) && u.mid != Updated && u.entry.Some?
    ensures Inv(Named(u, mode, hasFile))
  {
  }

  lemma UpdateInv(u: Upload, mode: Option<Mode>, hasFile: bool, length: Option<nat>, listens: bool)
    requires Inv(u)
    ensures Inv(ApplyUpdate(u, mode, hasFile, length, listens))
  {
    match u.mid
    case Found(true) =>
      if u.entry.Some? {
        StoredInv(u, Completed(u.entry.value, mode, hasFile), mode, hasFile, length, listens);
      }
    case Found(false) =>
      if u.entry.Some? {
        NamedInv(u, mode, hasFile);
      }
    case Creating =>
      if u.entry.Some? {
        NamedInv(u, mode, hasFile);
      } else {
        StoredInv(u, FreshEntry(mode, hasFile), mode, hasFile, length, listens);
      }
    case _ =>
  }

  lemma FlushBodyInv(u: Upload, io: FW.Io)
    requires Inv(u)
    ensures Inv(ApplyFlushBody(u, io))
  {
    var v := ApplyFlushBody(u, io);
    if MayFinish(u) && u.file.Some? && u.entry.value.body != [] {
      var sys, body := u.file.value, u.entry.value.body;
      OpEffect(sys, FW.Prefix(body), io);
      NothingRegistered(sys);
      FileInvAfterOp(u, FW.Prefix(body), io, u.(file := v.file));
      assert body + sys.w.Content() == body;
      assert u.queue == [] && Flatten([]) == [];
    }
  }

  lemma AnnounceFileInv(u: Upload)
    requires Inv(u) && u.phase == Prefixed && u.entry.Some? && u.file.Some?
    ensures var v := ApplyAnnounce(u);
            v.file.Some? && FileInv(v, v.file.value) && (!u.cancelled ==> LiveInv(v, v.file.value))
  {
    var (sys, t) := (u.file.value, ApplyAnnounce(u).file.value);
    assert u.entry.value.writer && u.entry.value.size == |u.all|;
    WR.ApplyInv(sys, WR.Finish(|u.all|));
    NothingRegistered(sys);
    NothingRegistered(t);
  }

  lemma AnnounceInv(u: Upload)
    requires Inv(u)
    ensures Inv(ApplyAnnounce(u))
  {
    if u.phase == Prefixed && u.entry.Some? && u.file.Some? {
      AnnounceFileInv(u);
    }
  }

  lemma WorkInv(u: Upload, io: FW.Io)
    requires Inv(u) && u.queue != [] && u.file.Some?
    ensures Inv(Apply(u, Work(io)))
  {
    var v := Apply(u, Work(io));
    OpEffect(u.file.value, FW.Write(u.queue[0]), io);
    if !u.cancelled {
      WorkLive(u, io);
    }
    FileInvAfterOp(u, FW.Write(u.queue[0]), io, v);
  }

  lemma HeadWritten(content: Bytes, queue: seq<Bytes>)
    requires queue != []
    ensures content + Flatten(queue) == (content + queue[0]) + Flatten(queue[1..])
  {
  }

  lemma WorkLive(u: Upload, io: FW.Io)
    requires Inv(u) && u.queue != [] && u.file.Some? && !u.cancelled
    ensures LiveInv(Apply(u, Work(io)), Apply(u, Work(io)).file.value)
  {
    var v := Apply(u, Work(io));
    var sys, t, head := u.file.value, v.file.value, u.queue[0];
    OpEffect(sys, FW.Write(head), io);
    HeadWritten(sys.w.Content(), u.queue);
    if WR.ThenSetLength(|u.all|) in sys.conts {
      assert WR.ThenSetLength(|u.all|) in t.conts;
    }
  }

  lemma UseInv(u: Upload, op: FW.Op, io: FW.Io)
    requires Inv(u) && u.event.Some? && u.event.value.writer && u.file.Some? && Allowed(op)
    ensures Inv(Apply(u, Use(op, io)))
  {
    OpEffect(u.file.value, op, io);
    FileInvAfterOp(u, op, io, Apply(u, Use(op, io)));
  }

  lemma SettleInv(u: Upload, cont: WR.Cont, io: FW.Io)
    requires Inv(u) && u.file.Some? && cont in u.file.value.conts
    ensures Inv(Apply(u, Settle(cont, io)))
  {
    if cont.ThenSetLength? {
      assert AnnouncementRunning(u.file.value) && u.phase == Announced;
      LengthInv(u, cont, io);
    } else {
      ReleaseInv(u, cont, io);
    }
  }

  lemma LengthTaken(u: Upload, cont: WR.Cont)
    requires Inv(u) && u.file.Some? && cont in u.file.value.conts && cont.ThenSetLength? && u.phase == Announced
    ensures var rest := u.file.value.(conts := u.file.value.conts - multiset{cont});
            FileInv(u.(file := Some(rest)), rest)
  {
    WR.RemoveInv(u.file.value, cont);
    NothingRegistered(u.file.value.(conts := u.file.value.conts - multiset{cont}));
  }

  /** The second half of FIN: the received size becomes the length, and the writer is exact. */
  lemma LengthInv(u: Upload, cont: WR.Cont, io: FW.Io)
    requires Inv(u) && u.file.Some? && cont in u.file.value.conts && cont.ThenSetLength? && u.phase == Announced
    ensures var v := Apply(u, Settle(cont, io));
            FileInv(v, v.file.value) && Exact(v.file.value.w, v.queue, v.all)
  {
    var v := Apply(u, Settle(cont, io));
    var sys := u.file.value;
    var rest := sys.(conts := sys.conts - multiset{cont});
    var without := u.(file := Some(rest));
    LengthTaken(u, cont);
    OpEffect(rest, FW.SetLength(cont.length), io);
    FileInvAfterOp(without, FW.SetLength(cont.length), io, v);
  }

  /** Settling, or dropping the callback of a failed FIN, changes no byte and promises nothing new. */
  lemma ReleaseInv(u: Upload, cont: WR.Cont, io: FW.Io)
    requires Inv(u) && u.file.Some? && cont in u.file.value.conts && !cont.ThenSetLength?
    ensures var v := Apply(u, Settle(cont, io));
            && FileInv(v, v.file.value)
            && (!u.cancelled ==> LiveInv(v, v.file.value))
  {
    ReleaseFileInv(u, cont, io);
    if !u.cancelled {
      ReleaseLiveInv(u, cont, io);
    }
  }

  lemma ReleaseEffect(sys: WR.Sys, cont: WR.Cont, io: FW.Io)
    requires cont in sys.conts && !cont.ThenSetLength?
    ensures var t := WR.Apply(sys, WR.Continue(cont, io));
            && t.w == sys.w.(callback := t.w.callback) && t.next == sys.next
            && (forall other: WR.Cont | !other.ThenSettle? && other in t.conts :: other in sys.conts)
            && (forall length | WR.ThenSetLength(length) in sys.conts :: WR.ThenSetLength(length) in t.conts)
  {
  }

  lemma ReleaseFileInv(u: Upload, cont: WR.Cont, io: FW.Io)
    requires Inv(u) && u.file.Some? && cont in u.file.value.conts && !cont.ThenSetLength?
    ensures var v := Apply(u, Settle(cont, io)); FileInv(v, v.file.value)
  {
    var sys := u.file.value;
    var t := WR.Apply(sys, WR.Continue(cont, io));
    WR.ApplyInv(sys, WR.Continue(cont, io));
    ReleaseEffect(sys, cont, io);
    if AnnouncementRunning(t) {
      var other :| other in t.conts && !other.ThenSettle?;
      assert other in sys.conts;
    }
    if Promised(t) {
      ReleasePromises(sys, cont, io);
    }
  }

  lemma ReleaseLiveInv(u: Upload, cont: WR.Cont, io: FW.Io)
    requires Inv(u) && u.file.Some? && cont in u.file.value.conts && !cont.ThenSetLength? && !u.cancelled
    ensures var v := Apply(u, Settle(cont, io)); LiveInv(v, v.file.value)
  {
    ReleaseEffect(u.file.value, cont, io);
  }

  lemma ReleasePromises(sys: WR.Sys, cont: WR.Cont, io: FW.Io)
    requires cont in sys.conts && !cont.ThenSetLength?
    requires Promised(WR.Apply(sys, WR.Continue(cont, io)))
    ensures Promised(sys)
  {
    var t := WR.Apply(sys, WR.Continue(cont, io));
    if t.dispatched == multiset{} {
      var other :| other in t.conts && other.ThenSettle? && other.callback.Some?;
      assert other in sys.conts;
    } else if sys.dispatched == multiset{} {
      assert cont.ThenSettle? && cont.callback.Some?;
    }
  }

  lemma StepInv(u: Upload, step: Step)
    requires Inv(u)
    ensures Inv(Apply(u, step))
  {
    match step
    case Data(packet, io) =>
      if !u.fin && !u.cancelled {
        DataInv(u, packet, io);
      }
    case Update(mode, hasFile, length, listens) => UpdateInv(u, mode, hasFile, length, listens);
    case FlushBody(io) => FlushBodyInv(u, io);
    case AnnounceSize => AnnounceInv(u);
    case Work(io) =>
      if u.queue != [] && u.file.Some? {
        WorkInv(u, io);
      }
    case Use(op, io) =>
      if u.event.Some? && u.event.value.writer && u.file.Some? && Allowed(op) {
        UseInv(u, op, io);
      }
    case Settle(cont, io) =>
      if u.file.Some? && cont in u.file.value.conts {
        SettleInv(u, cont, io);
      }
    case _ =>
  }

  lemma {:induction false} RunInv(u: Upload, steps: seq<Step>)
    requires Inv(u)
    ensures Inv(Run(u, steps))
    decreases |steps|
  {
    if steps == [] {
    } else {
      StepInv(u, steps[0]);
      RunInv(Apply(u, steps[0]), steps[1..]);
    }
  }

  // ---------- the race for the entry, and the listener ----------

  /** A packet that creates the entry after the lookup missed it decides the storage. */
  predicate RaceInv(u: Upload) {
    match u.mid
    case Waiting => !u.past.raced
    case Found(true) => !u.past.raced
    case Found(false) => u.past.raced <==> u.entry.Some?
    case Creating => u.past.raced <==> u.entry.Some?
    case Updated =>
      && (u.past.created <==> u.past.wanted && !u.past.raced)
      && (u.past.raced ==> u.past.stored == Some(InMemory))
  }

  /** A listener is told of every packet after header processing, when its mode says so. */
  predicate ListenerInv(u: Upload) {
    if u.mid != Updated then !u.past.listens && u.past.announced == []
    else
      && (!u.past.listens ==> u.past.announced == [])
      && (u.past.listens && TellsListener(u.past.stored) ==> u.all == u.past.early + Flatten(u.past.announced))
      && (u.past.stored == Some(Stream) ==>
            && (u.entry.Some? ==> u.entry.value.body == u.past.early)
            && (u.event.Some? ==> u.event.value.body == u.past.early))
  }

  lemma DataRace(u: Upload, packet: Bytes, io: FW.Io)
    requires !u.fin && !u.cancelled && RaceInv(u)
    ensures RaceInv(ApplyData(u, packet, io))
  {
  }

  lemma DataListener(u: Upload, packet: Bytes, io: FW.Io)
    requires Inv(u) && !u.fin && !u.cancelled && ListenerInv(u)
    ensures ListenerInv(ApplyData(u, packet, io))
  {
    if u.past.listens && TellsListener(u.past.stored) {
      FlattenSnoc(u.past.announced, packet);
      assert u.past.early + Flatten(u.past.announced) + packet == u.past.early + (Flatten(u.past.announced) + packet);
    }
  }

  lemma StoredHistory(
    u: Upload, entry: Entry, mode: Option<Mode>, hasFile: bool, length: Option<nat>, listens: bool)
    requires u.mid != Updated && u.event.None? && entry.body == u.all && RaceInv(u) && ListenerInv(u) && !u.past.raced
    ensures var v := Stored(u, entry, mode, hasFile, length, listens); RaceInv(v) && ListenerInv(v)
  {
    assert u.all + [] == u.all;
  }

  lemma NamedHistory(u: Upload, mode: Option<Mode>, hasFile: bool)
    requires Inv(u) && !u.cancelled && u.mid != Updated && u.entry.Some? && u.past.raced && ListenerInv(u)
    ensures var v := Named(u, mode, hasFile); RaceInv(v) && ListenerInv(v)
  {
  }

  lemma UpdateHistory(u: Upload, mode: Option<Mode>, hasFile: bool, length: Option<nat>, listens: bool)
    requires Inv(u) && !u.cancelled && RaceInv(u) && ListenerInv(u)
    ensures var v := ApplyUpdate(u, mode, hasFile, length, listens); RaceInv(v) && ListenerInv(v)
  {
    match u.mid
    case Found(true) => StoredHistory(u, Completed(u.entry.value, mode, hasFile), mode, hasFile, length, listens);
    case Found(false) =>
      if u.entry.Some? {
        NamedHistory(u, mode, hasFile);
      }
    case Creating =>
      if u.entry.Some? {
        NamedHistory(u, mode, hasFile);
      } else {
        StoredHistory(u, FreshEntry(mode, hasFile), mode, hasFile, length, listens);
      }
    case _ =>
  }

  /** Only packets and header processing write history; the event takes the entry's body over. */
  lemma EventHistory(u: Upload, step: Step)
    requires Inv(u) && !u.cancelled && RaceInv(u) && ListenerInv(u) && (step.FlushBody? || step.HandOut?)
    ensures var v := Apply(u, step); RaceInv(v) && ListenerInv(v)
  {
  }

  lemma NetworkHistory(u: Upload, step: Step)
    requires Inv(u) && !u.cancelled && RaceInv(u) && ListenerInv(u)
    requires step.Look? || step.Fin? || step.Cancel? || step.AnnounceSize?
    ensures var v := Apply(u, step); !v.cancelled ==> RaceInv(v) && ListenerInv(v)
  {
  }

  /** Using the file changes nothing but the file and what waits for it. */
  lemma SameHistory(u: Upload, file: Option<WR.Sys>, queue: seq<Bytes>)
    requires RaceInv(u) && ListenerInv(u)
    ensures var v := u.(file := file, queue := queue); RaceInv(v) && ListenerInv(v) && v.cancelled == u.cancelled
  {
  }

  lemma WorkHistory(u: Upload, io: FW.Io)
    ensures var v := Apply(u, Work(io)); v == u.(file := v.file, queue := v.queue)
  {
  }

  lemma UseHistory(u: Upload, op: FW.Op, io: FW.Io)
    ensures var v := Apply(u, Use(op, io)); v == u.(file := v.file, queue := v.queue)
  {
  }

  lemma SettleHistory(u: Upload, cont: WR.Cont, io: FW.Io)
    ensures var v := Apply(u, Settle(cont, io)); v == u.(file := v.file, queue := v.queue)
  {
  }

  lemma FileHistory(u: Upload, step: Step)
    requires RaceInv(u) && ListenerInv(u) && (step.Work? || step.Use? || step.Settle?)
    ensures var v := Apply(u, step); RaceInv(v) && ListenerInv(v) && v.cancelled == u.cancelled
  {
    var v := Apply(u, step);
    SameHistory(u, v.file, v.queue);
    match step
    case Work(io) => WorkHistory(u, io);
    case Use(op, io) => UseHistory(u, op, io);
    case Settle(cont, io) => SettleHistory(u, cont, io);
  }

  lemma HistoryStep(u: Upload, step: Step)
    requires Inv(u) && (!u.cancelled ==> RaceInv(u) && ListenerInv(u))
    ensures var v := Apply(u, step); !v.cancelled ==> RaceInv(v) && ListenerInv(v)
  {
    if u.cancelled {
      assert Apply(u, step).cancelled;
    } else if step.Work? || step.Use? || step.Settle? {
      FileHistory(u, step);
    } else {
      match step
      case Data(packet, io) =>
        if !u.fin {
          DataRace(u, packet, io);
          DataListener(u, packet, io);
        }
      case Update(mode, hasFile, length, listens) => UpdateHistory(u, mode, hasFile, length, listens);
      case FlushBody(_) => EventHistory(u, step);
      case HandOut => EventHistory(u, step);
      case _ => NetworkHistory(u, step);
    }
  }

  lemma {:induction false} HistoryRun(u: Upload, steps: seq<Step>)
    requires Inv(u) && (!u.cancelled ==> RaceInv(u) && ListenerInv(u))
    ensures var v := Run(u, steps); Inv(v) && (!v.cancelled ==> RaceInv(v) && ListenerInv(v))
    decreases |steps|
  {
    if steps == [] {
    } else {
      StepInv(u, steps[0]);
      HistoryStep(u, steps[0]);
      HistoryRun(Apply(u, steps[0]), steps[1..]);
    }
  }

  // ---------- main results ----------

  /**
   * For every packet sequence, every moment at which header processing switches the entry from memory
   * to file, every declared length or none, every answer of the device and every interleaving: a
   * callback registered on the handed-out writer is dispatched only when FIN was seen and the disk
   * holds every packet, in arrival order. A packet refused by an already complete file, an error that
   * is not kept, therefore never hides behind a success.
   */
  lemma CallbackMeansWholeUpload(steps: seq<Step>)
    ensures var u := Run(START, steps);
            u.file.Some? && u.file.value.dispatched != multiset{} ==>
              && u.fin && u.event.Some? && u.event.value.writer
              && u.file.value.w.disk == u.all && u.event.value.size == |u.all|
  {
    RunInv(START, steps);
  }

  /**
   * No handed-out writer is left undecided: once its queue holds no bytes it has either failed or
   * completed with exactly the received bytes on disk, and a live callback is no longer stored.
   */
  lemma HandedWriterIsDecided(steps: seq<Step>)
    ensures var u := Run(START, steps);
            u.event.Some? && u.event.value.writer && Flatten(u.queue) == [] ==>
              && u.file.Some? && u.file.value.w.Terminal() && u.file.value.w.callback.None?
              && (u.file.value.w.failure.None? ==> u.file.value.w.canClose && u.file.value.w.disk == u.all)
  {
    RunInv(START, steps);
    var u := Run(START, steps);
    if u.event.Some? && u.event.value.writer && Flatten(u.queue) == [] {
      var sys := u.file.value;
      if sys.w.failure.None? {
        assert u.all == sys.w.Content() + [] == sys.w.Content();
        ExactComplete(sys.w, u.queue, u.all);
      }
      assert WR.ThenTake in sys.conts ==> AnnouncementRunning(sys);
    }
  }

  /** The event hands out the writer exactly when a file was created, and in the mode that was stored. */
  lemma WriterIsHandedExactly(steps: seq<Step>)
    ensures var u := Run(START, steps);
            u.event.Some? ==> u.event.value.mode == u.past.stored && (u.event.value.writer <==> u.past.created)
  {
    RunInv(START, steps);
  }

  /**
   * The handler gets every received byte: in the event itself, or through the event's writer, whose disk,
   * buffer and queue are, unless it failed, the whole body of known length.
   */
  predicate WholeBodyReaches(u: Upload) {
    u.event.Some? &&
    (|| u.event.value.body == u.all
     || (u.event.value.writer && u.file.Some? && Exact(u.file.value.w, u.queue, u.all)))
  }

  /**
   * A stored body reaches the handler exactly when the entry was stored in memory, or its file was created,
   * or nothing was received: the remaining case is a file route whose file could not be created.
   */
  lemma StoredBodyReachesHandler(steps: seq<Step>)
    ensures var u := Run(START, steps);
            u.event.Some? && (u.past.stored == Some(InMemory) || u.past.stored == Some(OnDisk)) ==>
              && u.fin && !u.cancelled
              && (WholeBodyReaches(u) <==> u.past.stored == Some(InMemory) || u.past.created || u.all == [])
              && (u.past.stored == Some(InMemory) || u.past.created ==> u.event.value.size == |u.all|)
  {
    RunInv(START, steps);
  }

  /** The failing case: without its file a file route hands out neither the bytes nor a writer. */
  lemma MissingFileLosesBody()
    ensures var u := Apply(Apply(Apply(Apply(Apply(Apply(Apply(START,
                       Data([7], WR.WILLING)), Look), Update(Some(OnDisk), false, None, true)), Fin),
                       FlushBody(WR.WILLING)), AnnounceSize), HandOut);
            u.event == Some(Finished(Some(OnDisk), [], 1, false)) && u.all == [7]
            && !u.past.created && !WholeBodyReaches(u)
  {
    var u := Apply(Apply(START, Data([7], WR.WILLING)), Look);
    assert [] + [7] == [7];
    assert u.mid == Found(true) && u.entry == Some(Entry(Some(InMemory), false, [7], 1, false));
    var v := Apply(Apply(u, Update(Some(OnDisk), false, None, true)), Fin);
    assert v.file.None? && v.entry == Some(Entry(Some(OnDisk), true, [7], 1, false)) && MayFinish(v);
    var w := Apply(v, FlushBody(WR.WILLING));
    assert w.phase == Prefixed && w.entry == Some(Entry(Some(OnDisk), true, [], 1, false));
  }

  /**
   * With a file wanted and available, the writer is handed out exactly when no packet created the entry between
   * the lookup that missed it and the insertion; after such a race the body stays in memory, and whole.
   */
  lemma WriterIsHandedUnlessRaced(steps: seq<Step>)
    ensures var u := Run(START, steps);
            u.event.Some? ==>
              && (u.event.value.writer <==> u.past.wanted && !u.past.raced)
              && (u.past.raced ==> u.event.value.mode == Some(InMemory) && u.event.value.body == u.all)
  {
    HistoryRun(START, steps);
  }

  /** The race, as a run: the packet comes between the lookup and the insertion, and the file is not used. */
  lemma RacedFileExample()
    ensures var u := Apply(Apply(Apply(Apply(Apply(Apply(Apply(START,
                       Look), Data([7], WR.WILLING)), Update(Some(OnDisk), true, None, true)), Fin),
                       FlushBody(WR.WILLING)), AnnounceSize), HandOut);
            u.event == Some(Finished(Some(InMemory), [7], 1, false)) && u.past.wanted && u.past.raced
  {
    var u := Apply(Apply(START, Look), Data([7], WR.WILLING));
    assert [] + [7] == [7];
    assert u.past.raced && u.entry == Some(Entry(Some(InMemory), false, [7], 1, false));
  }

  /**
   * A streamed body: the event carries what came before header processing, and the listener was told of the
   * rest, packet by packet in order. Together they are everything received exactly when the route has a
   * listener or nothing came after its headers.
   */
  lemma StreamedBodyReachesListener(steps: seq<Step>)
    ensures var u := Run(START, steps);
            u.event.Some? && u.past.stored == Some(Stream) ==>
              && u.event.value.body == u.past.early
              && (u.event.value.body + Flatten(u.past.announced) == u.all <==> u.past.listens || u.all == u.past.early)
  {
    HistoryRun(START, steps);
    var u := Run(START, steps);
    if u.event.Some? && u.past.stored == Some(Stream) {
      assert u.mid == Updated && TellsListener(u.past.stored);
      if !u.past.listens {
        assert u.past.early + Flatten(u.past.announced) == u.past.early;
      }
    }
  }

  /** The listener of a file route is told of the same packets, raced entries excepted, which have no listener. */
  lemma FileListenerHearsTheRest(steps: seq<Step>)
    ensures var u := Run(START, steps);
            u.event.Some? && u.past.stored == Some(OnDisk) && u.past.listens ==>
              u.past.early + Flatten(u.past.announced) == u.all
  {
    HistoryRun(START, steps);
  }
}
