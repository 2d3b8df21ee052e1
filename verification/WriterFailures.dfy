/**
 * When exactly a locked region of the file writer fails, with which error, and what it leaves of the bytes.
 * Each condition is on the writer before the call and on the device's answers alone.
 */
module WriterFailures {
  import opened Basics
  import opened FileWriter

  // ---------- which regions leave a failure ----------

  /**
   * A write fails the file exactly when the file is not complete and the bytes overflow the counter, exceed the
   * declared length, or meet a device that refuses them, or refuses the last flush of a file they just filled.
   */
  lemma WriteFailsExactly(w: Writer, data: Bytes, io: Io)
    requires Sound(w) && w.failure.None?
    ensures var n := |w.Content()| + |data|;
            Locked(w, Write(data), io).w.failure.None? <==>
              || w.canClose
              || (&& n < 0x1_0000_0000_0000_0000 && (w.length.Some? ==> n <= w.length.value)
                  && io.write.ok && (w.length == Some(n) ==> io.seal.ok))
  {
    SpillKeepsContent(w, data, io.write.moved);
  }

  /** Bytes put in front: the device must flush, reopen, truncate and write; the limit is the declared length. */
  lemma PrefixFailsExactly(w: Writer, bytes: Bytes, io: Io)
    requires Sound(w) && w.failure.None?
    ensures var n := |w.Content()| + |bytes|;
            Locked(w, Prefix(bytes), io).w.failure.None? <==>
              || w.canClose
              || (&& (bytes != [] ==>
                        && io.flush.ok && io.opens && io.truncates && io.write.ok
                        && (w.length.Some? ==> n <= w.length.value))
                  && (w.length == Some(n) ==> io.seal.ok))
  {
    FlushStateCorrect(w, io.flush);
  }

  lemma FlushFailsExactly(w: Writer, io: Io)
    requires Sound(w) && w.failure.None?
    ensures Locked(w, Flush, io).w.failure.None? <==>
              io.flush.ok && (w.canClose || (w.length == Some(|w.Content()|) ==> io.seal.ok))
  {
    FlushStateCorrect(w, io.flush);
  }

  /** A first length below what was written fails the file; a later one is ignored. */
  lemma SetLengthFailsExactly(w: Writer, length: nat, io: Io)
    requires Sound(w) && w.failure.None?
    ensures var (n, known) := (|w.Content()|, if w.length.Some? then w.length.value else length);
            Locked(w, SetLength(length), io).w.failure.None? <==>
              w.canClose || (n <= known && (n == known ==> io.seal.ok))
  {
  }

  lemma RegisterFailsExactly(w: Writer, id: CallbackId, io: Io)
    requires Sound(w) && w.failure.None?
    ensures Locked(w, Register(id), io).w.failure.None? <==>
              w.canClose || (w.length == Some(|w.Content()|) ==> io.seal.ok)
  {
  }

  /** A FIN without interruption: the size must be the declared one, or not less than what was written. */
  lemma FinishFailsExactly(w: Writer, received: nat, io: Io)
    requires Sound(w) && w.failure.None?
    ensures var after := if FinishMismatch(w, received) then FinishCheck(w, received)
                         else Locked(w, SetLength(received), io).w;
            after.failure.None? <==>
              && (w.length.Some? ==> w.length.value == received)
              && (w.canClose || (|w.Content()| <= received && (|w.Content()| == received ==> io.seal.ok)))
  {
  }

  // ---------- which error is answered ----------

  /** The answer of a write, cause by cause; on a complete file the error is answered but not kept. */
  lemma WriteAnswersExactly(w: Writer, data: Bytes, io: Io)
    requires Sound(w) && w.failure.None?
    ensures var (n, outcome) := (|w.Content()| + |data|, Locked(w, Write(data), io).outcome);
            var accepted := !(w.canClose && data != []);
            var counted := accepted && n < 0x1_0000_0000_0000_0000;
            var fits := counted && (w.length.Some? ==> n <= w.length.value);
            && (!accepted ==> outcome == Failed(AlreadyCompleted))
            && (accepted && !counted ==> outcome == Failed(LengthOverflow))
            && (counted && !fits ==> outcome == Failed(ExceedsLength))
            && (fits && !io.write.ok ==> outcome == Failed(Device(io.write.code)))
            && (fits && io.write.ok && !w.canClose && w.length == Some(n) && !io.seal.ok ==>
                  outcome == Failed(Device(io.seal.code)))
            && (fits && io.write.ok && (!w.canClose && w.length == Some(n) ==> io.seal.ok) ==>
                  outcome == Ready(w.length == Some(n)))
  {
    SpillKeepsContent(w, data, io.write.moved);
  }

  /** The answer to bytes put in front of an incomplete file, cause by cause. */
  lemma PrefixAnswersExactly(w: Writer, bytes: Bytes, io: Io)
    requires Sound(w) && w.failure.None? && bytes != []
    ensures var (n, outcome) := (|w.Content()| + |bytes|, Locked(w, Prefix(bytes), io).outcome);
            var exceeds := w.length.Some? && n > w.length.value;
            if w.canClose then outcome == Failed(AlreadyCompleted)
            else if !io.flush.ok then outcome == Failed(Device(io.flush.code))
            else if exceeds && io.opens then outcome == Failed(ExceedsLength)
            else if !io.opens || !io.truncates || !io.write.ok then outcome == Failed(Device(io.write.code))
            else if w.length == Some(n) && !io.seal.ok then outcome == Failed(Device(io.seal.code))
            else outcome == Ready(w.length == Some(n))
  {
    FlushStateCorrect(w, io.flush);
  }

  /** The answers of the calls that add no bytes: a refusing device, an exceeded length, or whether it is complete. */
  lemma OtherAnswersExactly(w: Writer, length: nat, id: CallbackId, io: Io)
    requires Sound(w) && w.failure.None?
    ensures var (n, known) := (|w.Content()|, if w.length.Some? then w.length.value else length);
            var filled := w.length == Some(n);
            var sealed := if filled && !w.canClose && !io.seal.ok then Failed(Device(io.seal.code)) else Ready(filled);
            && Locked(w, Flush, io).outcome == (if io.flush.ok then sealed else Failed(Device(io.flush.code)))
            && Locked(w, Register(id), io).outcome == sealed
            && Locked(w, SetLength(length), io).outcome ==
                 if w.canClose then Ready(true)
                 else if n > known then Failed(ExceedsLength)
                 else if n < known then Ready(false)
                 else if io.seal.ok then Ready(true) else Failed(Device(io.seal.code))
  {
    FlushStateCorrect(w, io.flush);
  }

  /** A device that takes part of what it is given leaves exactly that part on disk and the rest buffered. */
  lemma DeviceTakesPart(w: Writer, data: Bytes, moved: nat)
    requires moved <= |w.buffer| + |data|
    ensures var t := Spill(w, data, moved);
            |t.disk| == |w.disk| + moved && t.disk + t.buffer == w.disk + w.buffer + data && w.disk <= t.disk
  {
    SpillKeepsContent(w, data, moved);
  }

  /** Only bytes for a complete file are refused without a failure being kept. */
  lemma ReadyWhenUnfailed(w: Writer, op: Op, io: Io)
    requires Sound(w) && w.failure.None?
    requires w.canClose ==> (op.Write? ==> op.data == []) && (op.Prefix? ==> op.bytes == [])
    requires w.canClose && op.Write? ==> io.write.ok && |w.Content()| < 0x1_0000_0000_0000_0000
    ensures Locked(w, op, io).w.failure.None? ==> Locked(w, op, io).outcome.Ready?
  {
    if op.Prefix? {
      FlushStateCorrect(w, io.flush);
    } else if op.Write? {
      SpillKeepsContent(w, op.data, io.write.moved);
    }
  }

  /** A failed writer answers its first failure to every call. */
  lemma FailedWriterAnswersFirstFailure(w: Writer, op: Op, io: Io)
    requires w.failure.Some?
    ensures Locked(w, op, io).outcome == Failed(w.failure.value)
    ensures Locked(w, op, io).w.disk == w.disk && Locked(w, op, io).w.buffer == w.buffer
  {
  }

  // ---------- what a failing region leaves ----------

  /**
   * Whatever the device answers: a write leaves the old bytes, alone or followed by the new ones; flushes, lengths
   * and registrations leave the bytes alone; only a prefix can tear the file, to a part of the prefixed content.
   */
  lemma BytesAfterRegion(w: Writer, op: Op, io: Io)
    requires Sound(w)
    ensures var (before, after) := (w.Content(), Locked(w, op, io).w.Content());
            match op
            case Write(data) => after == before || after == before + data
            case Prefix(bytes) => after == before || after <= bytes + before
            case _ => after == before
  {
    match op
    case Write(data) => BytesAfterWrite(w, data, io);
    case Prefix(bytes) => BytesAfterPrefix(w, bytes, io);
    case _ => BytesAfterOther(w, op, io);
  }

  lemma SealKeepsBytes(w: Writer, seal: Push)
    ensures CompleteIfReady(w, seal).0.Content() == w.Content()
  {
    SpillKeepsContent(w, [], |w.buffer|);
    SpillKeepsContent(w, [], seal.moved);
    assert w.Content() + [] == w.Content();
  }

  lemma FlushKeepsBytes(w: Writer, push: Push)
    ensures FlushState(w, push).0.Content() == w.Content()
  {
    SpillKeepsContent(w, [], |w.buffer|);
    SpillKeepsContent(w, [], push.moved);
    assert w.Content() + [] == w.Content();
  }

  lemma BytesAfterSpill(spilled: Writer, next: nat, io: Io)
    ensures WriteSpilled(spilled, next, io).0.Content() == spilled.Content()
  {
    SealKeepsBytes(spilled.(written := next), io.seal);
  }

  /** Recording a failure and settling the callback touch no byte. */
  lemma RecordedBytes(attempt: (Writer, Outcome))
    ensures Record(attempt).0.disk == attempt.0.disk && Record(attempt).0.buffer == attempt.0.buffer
  {
  }

  lemma LockedBytes(w: Writer, op: Op, io: Io)
    ensures var (locked, body) := (Locked(w, op, io).w, Body(w, op, io).0);
            locked.disk == body.disk && locked.buffer == body.buffer
  {
  }

  lemma BytesAfterWriting(w: Writer, data: Bytes, io: Io)
    ensures var after := WriteBytes(w, data, io).0.Content(); after == w.Content() || after == w.Content() + data
  {
    var (spilled, next) := (Spill(w, data, io.write.moved), w.written + |data|);
    SpillKeepsContent(w, data, io.write.moved);
    BytesAfterSpill(spilled, next, io);
    assert WriteBytes(w, data, io).0 == w || WriteBytes(w, data, io) == WriteSpilled(spilled, next, io);
  }

  lemma BytesAfterWrite(w: Writer, data: Bytes, io: Io)
    ensures var after := Locked(w, Write(data), io).w.Content(); after == w.Content() || after == w.Content() + data
  {
    BytesAfterWriting(w, data, io);
    RecordedBytes(WriteBytes(w, data, io));
    LockedBytes(w, Write(data), io);
  }

  /** Rewriting a flushed file leaves it as it was, or with a part of the new content. */
  lemma BytesAfterRewrite(flushed: Writer, all: Bytes, io: Io)
    requires flushed.buffer == []
    ensures var after := RewriteFlushed(flushed, all, io).0.Content(); after == flushed.Content() || after <= all
  {
    var rewritten := flushed.(disk := all, written := |all|);
    SealKeepsBytes(rewritten, io.seal);
    assert all + [] == all;
    var part := all[..Min(io.write.moved, |all|)];
    assert part + [] == part;
  }

  lemma BytesAfterAttempt(w: Writer, bytes: Bytes, io: Io)
    ensures var after := PrefixBytes(w, bytes, io).0.Content(); after == w.Content() || after <= bytes + w.Content()
  {
    var (flushed, outcome) := FlushState(w, io.flush);
    FlushKeepsBytes(w, io.flush);
    SealKeepsBytes(w, io.seal);
    if outcome.Ready? {
      assert flushed.buffer == [] && flushed.disk + [] == flushed.disk;
      BytesAfterRewrite(flushed, bytes + flushed.disk, io);
    }
  }

  lemma BytesAfterPrefix(w: Writer, bytes: Bytes, io: Io)
    ensures var after := Locked(w, Prefix(bytes), io).w.Content();
            after == w.Content() || after <= bytes + w.Content()
  {
    BytesAfterAttempt(w, bytes, io);
    RecordedBytes(PrefixBytes(w, bytes, io));
    LockedBytes(w, Prefix(bytes), io);
  }

  lemma BytesAfterOther(w: Writer, op: Op, io: Io)
    requires !op.Write? && !op.Prefix?
    ensures Locked(w, op, io).w.Content() == w.Content()
  {
    match op
    case Flush =>
      FlushKeepsBytes(w, io.flush);
      SealKeepsBytes(FlushState(w, io.flush).0, io.seal);
    case SetLength(length) =>
      SealKeepsBytes(if w.length.None? then w.(length := Some(length)) else w, io.seal);
    case Register(id) => SealKeepsBytes(w.(callback := Some(id)), io.seal);
  }
}
