/**
 * The buffered file writer: what one locked region does to the writer, as functions of its value,
 * and the lock-protected object whose methods are those regions followed by settlement.
 */
module FileWriter {
  import opened Basics

  datatype IoError =
    | Device(code: nat)
    | ExceedsLength
    | LengthMismatch
    | AlreadyCompleted
    | LengthOverflow

  /** Whether the file is complete, or why the region failed. */
  datatype Outcome = Ready(complete: bool) | Failed(error: IoError)

  /** The device's answer to a flush or a write: how many buffered bytes reached the disk. */
  datatype Push = Push(ok: bool, moved: nat, code: nat)

  /** Every answer one locked region may consult. */
  datatype Io = Io(flush: Push, seal: Push, write: Push, opens: bool, truncates: bool)

  type CallbackId = nat

  datatype Writer = Writer(
    disk: Bytes,
    buffer: Bytes,
    canClose: bool,
    failure: Option<IoError>,
    length: Option<nat>,
    written: nat,
    callback: Option<CallbackId>)
  {
    /** The abstract content: what reached the disk, then what is still buffered. */
    function Content(): Bytes {
      disk + buffer
    }

    predicate Terminal() {
      canClose || failure.Some?
    }
  }

  function NewWriter(length: Option<nat>): Writer {
    Writer([], [], false, None, length, 0, None)
  }

  /** The first failure is kept; the caller is told about that one. */
  function Fail(w: Writer, error: IoError): Writer {
    if w.failure.Some? then w else w.(failure := Some(error))
  }

  function Failing(w: Writer, error: IoError): (Writer, Outcome) {
    var failed := Fail(w, error);
    (failed, Failed(failed.failure.value))
  }

  /** Buffered bytes followed by `data`, of which the first `moved` reach the disk. */
  function Spill(w: Writer, data: Bytes, moved: nat): Writer {
    var all := w.buffer + data;
    var k := Min(moved, |all|);
    w.(disk := w.disk + all[..k], buffer := all[k..])
  }

  function FlushState(w: Writer, push: Push): (Writer, Outcome) {
    if w.failure.Some? then (w, Failed(w.failure.value))
    else if push.ok then (Spill(w, [], |w.buffer|), Ready(false))
    else Failing(Spill(w, [], push.moved), Device(push.code))
  }

  function CompleteIfReady(w: Writer, seal: Push): (Writer, Outcome) {
    if w.failure.Some? then (w, Failed(w.failure.value))
    else if w.canClose then (w, Ready(true))
    else if w.length.None? || w.written < w.length.value then (w, Ready(false))
    else if w.written > w.length.value then Failing(w, ExceedsLength)
    else
      var (flushed, outcome) := FlushState(w, seal);
      if outcome.Failed? then (flushed, outcome) else (flushed.(canClose := true), Ready(true))
  }

  /** An error of a writer that is not complete becomes its sticky failure. */
  function Record(step: (Writer, Outcome)): (Writer, Outcome) {
    if step.1.Failed? && !step.0.canClose then Failing(step.0, step.1.error) else step
  }

  function WriteBytes(w: Writer, data: Bytes, io: Io): (Writer, Outcome) {
    var next := w.written + |data|;
    if w.failure.Some? then (w, Failed(w.failure.value))
    else if w.canClose && data != [] then (w, Failed(AlreadyCompleted))
    else if next >= WORD_LIMIT then (w, Failed(LengthOverflow))
    else if w.length.Some? && next > w.length.value then (w, Failed(ExceedsLength))
    else WriteSpilled(Spill(w, data, io.write.moved), next, io)
  }

  /** The device took what it took; only a whole write counts. */
  function WriteSpilled(spilled: Writer, next: nat, io: Io): (Writer, Outcome) {
    if !io.write.ok then (spilled, Failed(Device(io.write.code)))
    else CompleteIfReady(spilled.(written := next), io.seal)
  }

  /** Reread the file and rewrite it behind `bytes`; a failure after truncation leaves a torn file. */
  function PrefixBytes(w: Writer, bytes: Bytes, io: Io): (Writer, Outcome) {
    if w.failure.Some? then (w, Failed(w.failure.value))
    else if bytes == [] then CompleteIfReady(w, io.seal)
    else if w.canClose then (w, Failed(AlreadyCompleted))
    else
      var (flushed, outcome) := FlushState(w, io.flush);
      if outcome.Failed? then (flushed, outcome) else RewriteFlushed(flushed, bytes + flushed.disk, io)
  }

  /** The flushed file, reread behind its prefix as `all`, is truncated and written again. */
  function RewriteFlushed(flushed: Writer, all: Bytes, io: Io): (Writer, Outcome) {
    if !io.opens then (flushed, Failed(Device(io.write.code)))
    else if flushed.length.Some? && |all| > flushed.length.value then (flushed, Failed(ExceedsLength))
    else if !io.truncates then (flushed, Failed(Device(io.write.code)))
    else if !io.write.ok then
      (flushed.(disk := all[..Min(io.write.moved, |all|)]), Failed(Device(io.write.code)))
    else CompleteIfReady(flushed.(disk := all, written := |all|), io.seal)
  }

  datatype Op =
    | Write(data: Bytes)
    | Prefix(bytes: Bytes)
    | Flush
    | SetLength(length: nat)
    | Register(id: CallbackId)

  /** The body of a locked region, before the callback is considered. */
  function Body(w: Writer, op: Op, io: Io): (Writer, Outcome) {
    match op
    case Write(data) => Record(WriteBytes(w, data, io))
    case Prefix(bytes) => Record(PrefixBytes(w, bytes, io))
    case Flush =>
      var (flushed, outcome) := FlushState(w, io.flush);
      if outcome.Failed? then (flushed, outcome) else CompleteIfReady(flushed, io.seal)
    case SetLength(length) =>
      CompleteIfReady(if w.length.None? then w.(length := Some(length)) else w, io.seal)
    case Register(id) => CompleteIfReady(w.(callback := Some(id)), io.seal)
  }

  /** A region's new writer, its outcome, and the callback it took for dispatch or discarded. */
  datatype Region = Region(w: Writer, outcome: Outcome, taken: Option<CallbackId>, dropped: Option<CallbackId>)

  function Locked(w: Writer, op: Op, io: Io): Region {
    var (after, outcome) := Body(w, op, io);
    match outcome
    case Ready(false) => Region(after, outcome, None, None)
    case Ready(true) => Region(after.(callback := None), outcome, after.callback, None)
    case Failed(_) => Region(after.(callback := None), outcome, None, after.callback)
  }

  /** The first region of FIN: a declared length that differs from the received size is a failure. */
  function FinishCheck(w: Writer, received: nat): Writer {
    if w.length.Some? && w.length.value != received then Fail(w, LengthMismatch) else w
  }

  predicate FinishMismatch(w: Writer, received: nat) {
    w.length.Some? && w.length.value != received
  }

  // ---------- the invariant of one writer ----------

  /**
   * Unfailed: the counter is the content's size and never exceeds a known length.
   * Complete, even if a failure is recorded later: everything is on disk and the size is exact.
   */
  predicate Sound(w: Writer) {
    && (w.failure.None? ==> w.written == |w.Content()| && (w.length.Some? ==> w.written <= w.length.value))
    && (w.canClose ==> w.buffer == [] && w.length == Some(|w.disk|) && w.written == |w.disk|)
  }

  /** What every region keeps: a complete file's bytes, the first failure, and a known length. */
  predicate Kept(w: Writer, after: Writer) {
    && (w.canClose ==> after.canClose && after.disk == w.disk)
    && (w.failure.Some? ==> after.failure == w.failure)
    && (w.length.Some? ==> after.length == w.length)
  }

  /** The sequence a client sees: no buffer, no disk, no device answers. */
  datatype File = File(content: Bytes, length: Option<nat>, complete: bool)

  function View(w: Writer): File {
    File(w.Content(), w.length, w.canClose)
  }

  function FileStep(f: File, op: Op): File {
    var edited := match op
      case Write(data) => if f.complete then f else f.(content := f.content + data)
      case Prefix(bytes) => if f.complete then f else f.(content := bytes + f.content)
      case SetLength(length) => if f.length.None? then f.(length := Some(length)) else f
      case Flush => f
      case Register(_) => f;
    Sealed(edited)
  }

  /** A file whose size is its known length is complete. */
  function Sealed(f: File): File {
    f.(complete := f.complete || f.length == Some(|f.content|))
  }

  /** The outcome tells the truth about the writer it leaves. */
  predicate Truthful(after: Writer, outcome: Outcome) {
    match outcome
    case Ready(complete) => after.failure.None? && after.canClose == complete
    case Failed(_) => after.Terminal()
  }

  function Stored(w: Writer, op: Op): Option<CallbackId> {
    if op.Register? then Some(op.id) else w.callback
  }

  /** All that is proved of one region's body, for any device answers. */
  predicate Correct(w: Writer, op: Op, after: Writer, outcome: Outcome) {
    && Sound(after)
    && Kept(w, after)
    && Truthful(after, outcome)
    && after.callback == Stored(w, op)
    && (after.failure.None? ==> w.failure.None? && View(after) == FileStep(View(w), op))
  }

  lemma SpillKeepsContent(w: Writer, data: Bytes, moved: nat)
    ensures Spill(w, data, moved).Content() == w.Content() + data
    ensures w.buffer == [] && data == [] ==> Spill(w, data, moved) == w
  {
    var all := w.buffer + data;
    assert all == all[..Min(moved, |all|)] + all[Min(moved, |all|)..];
  }

  lemma FlushStateCorrect(w: Writer, push: Push)
    requires Sound(w)
    ensures var (after, outcome) := FlushState(w, push);
            && Sound(after) && Kept(w, after)
            && after == w.(disk := after.disk, buffer := after.buffer, failure := after.failure)
            && (outcome.Ready? <==> after.failure.None?)
            && (outcome.Ready? ==> w.failure.None? && after.disk == w.Content() && after.buffer == [])
  {
    SpillKeepsContent(w, [], |w.buffer|);
    SpillKeepsContent(w, [], push.moved);
  }

  /** Completion also meets writers whose just-learned length is already exceeded: they fail. */
  lemma CompleteIfReadyCorrect(w: Writer, seal: Push)
    requires w.failure.None? ==> w.written == |w.Content()|
    requires w.canClose ==> Sound(w)
    ensures var (after, outcome) := CompleteIfReady(w, seal);
            && Sound(after) && Kept(w, after) && Truthful(after, outcome)
            && after.callback == w.callback
            && (after.failure.None? ==> w.failure.None? && View(after) == Sealed(View(w)))
  {
    if w.failure.None? && !w.canClose && w.length.Some? && w.written <= w.length.value {
      FlushStateCorrect(w, seal);
    }
  }

  /** All that is proved of an edit before its error, if any, is recorded. */
  predicate Attempted(w: Writer, op: Op, attempt: (Writer, Outcome)) {
    && Kept(w, attempt.0) && attempt.0.callback == Stored(w, op)
    && (attempt.1.Ready? || attempt.0.canClose ==> Correct(w, op, attempt.0, attempt.1))
  }

  /** A recorded attempt: errors of an incomplete writer become its failure, anything else is already correct. */
  lemma RecordCorrect(w: Writer, op: Op, attempt: (Writer, Outcome))
    requires Attempted(w, op, attempt)
    ensures var (after, outcome) := Record(attempt); Correct(w, op, after, outcome)
  {
  }

  /** An edit refused before it touched anything. */
  lemma RefusedAttempt(w: Writer, op: Op, error: IoError)
    requires Sound(w) && (op.Write? || op.Prefix?)
    ensures Attempted(w, op, (w, Failed(error)))
  {
  }

  /** All that is known of a write the device took in whole or in part. */
  predicate Appended(w: Writer, data: Bytes, spilled: Writer) {
    && spilled == w.(disk := spilled.disk, buffer := spilled.buffer)
    && spilled.Content() == w.Content() + data
    && (w.buffer == [] && data == [] ==> spilled == w)
  }

  lemma SpillAppends(w: Writer, data: Bytes, moved: nat)
    ensures Appended(w, data, Spill(w, data, moved))
  {
    SpillKeepsContent(w, data, moved);
  }

  lemma AppendCorrect(w: Writer, data: Bytes, spilled: Writer, io: Io)
    requires Sound(w) && w.failure.None? && (w.canClose ==> data == []) && Appended(w, data, spilled)
    requires w.length.Some? ==> w.written + |data| <= w.length.value
    ensures Attempted(w, Write(data), WriteSpilled(spilled, w.written + |data|, io))
  {
    if w.canClose {
      assert w.Content() + data == w.Content();
    }
    if io.write.ok {
      AppendView(w, data, spilled.(written := w.written + |data|));
      CompleteIfReadyCorrect(spilled.(written := w.written + |data|), io.seal);
    }
  }

  lemma AppendView(w: Writer, data: Bytes, appended: Writer)
    requires Sound(w) && w.failure.None? && (w.canClose ==> data == [])
    requires appended.Content() == w.Content() + data && appended.length == w.length && appended.canClose == w.canClose
    ensures Sealed(View(appended)) == FileStep(View(w), Write(data))
  {
    if w.canClose {
      assert w.Content() + data == w.Content();
    }
  }

  lemma WriteAttempted(w: Writer, data: Bytes, io: Io)
    requires Sound(w)
    ensures Attempted(w, Write(data), WriteBytes(w, data, io))
  {
    var (next, attempt) := (w.written + |data|, WriteBytes(w, data, io));
    var fits := next < WORD_LIMIT && (w.length.Some? ==> next <= w.length.value);
    if w.failure.None? && !(w.canClose && data != []) && fits {
      var spilled := Spill(w, data, io.write.moved);
      assert attempt == WriteSpilled(spilled, next, io);
      SpillAppends(w, data, io.write.moved);
      AppendCorrect(w, data, spilled, io);
    } else {
      assert attempt == (w, Failed(attempt.1.error));
      RefusedAttempt(w, Write(data), attempt.1.error);
    }
  }

  lemma WriteCorrect(w: Writer, data: Bytes, io: Io)
    requires Sound(w)
    ensures var (after, outcome) := Body(w, Write(data), io); Correct(w, Write(data), after, outcome)
  {
    WriteAttempted(w, data, io);
    RecordCorrect(w, Write(data), WriteBytes(w, data, io));
  }

  lemma PrefixView(w: Writer, bytes: Bytes, rewritten: Writer)
    requires Sound(w) && !w.canClose && rewritten.Content() == bytes + w.Content()
    requires rewritten.length == w.length && !rewritten.canClose
    ensures Sealed(View(rewritten)) == FileStep(View(w), Prefix(bytes))
  {
  }

  lemma RewriteCorrect(w: Writer, bytes: Bytes, flushed: Writer, io: Io)
    requires Sound(w) && w.failure.None? && !w.canClose
    requires flushed == w.(disk := w.Content(), buffer := [])
    ensures Attempted(w, Prefix(bytes), RewriteFlushed(flushed, bytes + flushed.disk, io))
  {
    var all := bytes + flushed.disk;
    var rewritten := flushed.(disk := all, written := |all|);
    assert rewritten.Content() == all;
    PrefixView(w, bytes, rewritten);
    CompleteIfReadyCorrect(rewritten, io.seal);
  }

  lemma EmptyPrefixCorrect(w: Writer, io: Io)
    requires Sound(w)
    ensures var (after, outcome) := CompleteIfReady(w, io.seal); Correct(w, Prefix([]), after, outcome)
  {
    CompleteIfReadyCorrect(w, io.seal);
    assert [] + w.Content() == w.Content();
  }

  lemma PrefixAttempted(w: Writer, bytes: Bytes, io: Io)
    requires Sound(w)
    ensures Attempted(w, Prefix(bytes), PrefixBytes(w, bytes, io))
  {
    if w.failure.Some? {
      RefusedAttempt(w, Prefix(bytes), w.failure.value);
    } else if bytes == [] {
      EmptyPrefixCorrect(w, io);
    } else if w.canClose {
      RefusedAttempt(w, Prefix(bytes), AlreadyCompleted);
    } else {
      FlushStateCorrect(w, io.flush);
      var (flushed, outcome) := FlushState(w, io.flush);
      if outcome.Ready? {
        RewriteCorrect(w, bytes, flushed, io);
      }
    }
  }

  lemma PrefixCorrect(w: Writer, bytes: Bytes, io: Io)
    requires Sound(w)
    ensures var (after, outcome) := Body(w, Prefix(bytes), io); Correct(w, Prefix(bytes), after, outcome)
  {
    PrefixAttempted(w, bytes, io);
    RecordCorrect(w, Prefix(bytes), PrefixBytes(w, bytes, io));
  }

  lemma FlushCorrect(w: Writer, io: Io)
    requires Sound(w)
    ensures var (after, outcome) := Body(w, Flush, io); Correct(w, Flush, after, outcome)
  {
    FlushStateCorrect(w, io.flush);
    var (flushed, outcome) := FlushState(w, io.flush);
    if outcome.Ready? {
      assert flushed.Content() == w.Content();
      assert View(flushed) == View(w);
      CompleteIfReadyCorrect(flushed, io.seal);
    }
  }

  lemma BodyCorrect(w: Writer, op: Op, io: Io)
    requires Sound(w)
    ensures var (after, outcome) := Body(w, op, io); Correct(w, op, after, outcome)
  {
    match op
    case Write(data) => WriteCorrect(w, data, io);
    case Prefix(bytes) => PrefixCorrect(w, bytes, io);
    case Flush => FlushCorrect(w, io);
    case SetLength(length) =>
      CompleteIfReadyCorrect(if w.length.None? then w.(length := Some(length)) else w, io.seal);
    case Register(id) =>
      CompleteIfReadyCorrect(w.(callback := Some(id)), io.seal);
  }

  /** The fate of the stored callback, and all that a thread learns from one region. */
  predicate Faithful(w: Writer, op: Op, region: Region) {
    && Sound(region.w) && Kept(w, region.w) && Truthful(region.w, region.outcome)
    && (region.w.failure.None? ==> w.failure.None? && View(region.w) == FileStep(View(w), op))
    && region.w.callback == (if region.outcome == Ready(false) then Stored(w, op) else None)
    && region.taken == (if region.outcome == Ready(true) then Stored(w, op) else None)
    && region.dropped == (if region.outcome.Failed? then Stored(w, op) else None)
  }

  /**
   * One locked region, in terms that mention neither buffer nor device: it keeps the invariant, acts
   * on the content as on a plain sequence unless it fails, and takes the stored callback for dispatch
   * exactly when it leaves a complete, unfailed writer; a failing region discards it.
   */
  lemma LockedCorrect(w: Writer, op: Op, io: Io)
    requires Sound(w)
    ensures Faithful(w, op, Locked(w, op, io))
  {
    BodyCorrect(w, op, io);
  }

  lemma FinishCheckSound(w: Writer, received: nat)
    requires Sound(w)
    ensures Sound(FinishCheck(w, received))
  {
  }

  // ---------- the lock-protected object ----------

  class FileWriterHandle {
    var disk: Bytes
    var buffer: Bytes
    var canClose: bool
    var failure: Option<IoError>
    var fileLength: Option<nat>
    var written: nat
    var finishingCallback: Option<CallbackId>
    /** Whether the pending registry still lists this handle. */
    var listed: bool
    /** Callbacks handed to the finishing queue, in order. */
    var dispatched: seq<CallbackId>

    ghost function Value(): Writer
      reads this
    {
      Writer(disk, buffer, canClose, failure, fileLength, written, finishingCallback)
    }

    constructor (length: Option<nat>)
      ensures Value() == NewWriter(length) && listed && dispatched == []
    {
      disk, buffer, canClose, failure := [], [], false, None;
      fileLength, written, finishingCallback := length, 0, None;
      listed, dispatched := true, [];
    }

    method RecordFailure(error: IoError) returns (first: IoError)
      modifies `failure
      ensures Value() == Fail(old(Value()), error) && failure == Some(first)
    {
      if failure.None? {
        failure := Some(error);
      }
      first := failure.value;
    }

    /** Hand the first bytes of the buffer to the device. */
    method Drain(count: nat)
      modifies `disk, `buffer
      ensures Value() == Spill(old(Value()), [], count)
    {
      var k := Min(count, |buffer|);
      assert buffer + [] == buffer;
      disk, buffer := disk + buffer[..k], buffer[k..];
    }

    method FlushBuffer(push: Push) returns (outcome: Outcome)
      modifies `disk, `buffer, `failure
      ensures (Value(), outcome) == FlushState(old(Value()), push)
    {
      if failure.Some? {
        return Failed(failure.value);
      }
      if push.ok {
        Drain(|buffer|);
        return Ready(false);
      }
      Drain(push.moved);
      var error := RecordFailure(Device(push.code));
      outcome := Failed(error);
    }

    method Complete(seal: Push) returns (outcome: Outcome)
      modifies `disk, `buffer, `failure, `canClose
      ensures (Value(), outcome) == CompleteIfReady(old(Value()), seal)
    {
      if failure.Some? {
        return Failed(failure.value);
      }
      if canClose {
        return Ready(true);
      }
      if fileLength.None? || written < fileLength.value {
        return Ready(false);
      }
      if written > fileLength.value {
        var error := RecordFailure(ExceedsLength);
        return Failed(error);
      }
      outcome := FlushBuffer(seal);
      if outcome.Ready? {
        canClose := true;
        outcome := Ready(true);
      }
    }

    /** Take the stored callback when the region is terminal; only success keeps it for dispatch. */
    method CompletionCallback(outcome: Outcome) returns (taken: Option<CallbackId>)
      modifies `finishingCallback
      ensures taken == if outcome == Ready(true) then old(finishingCallback) else None
      ensures finishingCallback == if outcome == Ready(false) then old(finishingCallback) else None
    {
      taken := None;
      if outcome != Ready(false) {
        if outcome == Ready(true) {
          taken := finishingCallback;
        }
        finishingCallback := None;
      }
    }

    /** After the lock: leave the registry on any terminal outcome, and queue the callback. */
    method Settle(outcome: Outcome, callback: Option<CallbackId>)
      modifies `listed, `dispatched
      ensures listed == (old(listed) && outcome == Ready(false))
      ensures dispatched == old(dispatched) + if callback.Some? then [callback.value] else []
    {
      if outcome != Ready(false) {
        listed := false;
      }
      if callback.Some? {
        dispatched := dispatched + [callback.value];
      }
    }

    method WriteOnDisk(data: Bytes, io: Io) returns (outcome: Outcome)
      modifies this
      ensures var region := Locked(old(Value()), Write(data), io);
              Value() == region.w && outcome == region.outcome && Settled(region, old(listed), old(dispatched))
    {
      outcome := AppendBuffered(data, io);
      if outcome.Failed? && !canClose {
        var error := RecordFailure(outcome.error);
        outcome := Failed(error);
      }
      var callback := CompletionCallback(outcome);
      Settle(outcome, callback);
    }

    method AppendBuffered(data: Bytes, io: Io) returns (outcome: Outcome)
      modifies `disk, `buffer, `failure, `canClose, `written
      ensures (Value(), outcome) == WriteBytes(old(Value()), data, io)
    {
      if failure.Some? {
        return Failed(failure.value);
      }
      if canClose && data != [] {
        return Failed(AlreadyCompleted);
      }
      var next := written + |data|;
      if next >= WORD_LIMIT {
        return Failed(LengthOverflow);
      }
      if fileLength.Some? && next > fileLength.value {
        return Failed(ExceedsLength);
      }
      buffer := buffer + data;
      var k := Min(io.write.moved, |buffer|);
      disk, buffer := disk + buffer[..k], buffer[k..];
      if !io.write.ok {
        return Failed(Device(io.write.code));
      }
      written := next;
      outcome := Complete(io.seal);
    }

    method TransferBytesFromTempFile(bytes: Bytes, io: Io) returns (outcome: Outcome)
      modifies this
      ensures var region := Locked(old(Value()), Prefix(bytes), io);
              Value() == region.w && outcome == region.outcome && Settled(region, old(listed), old(dispatched))
    {
      outcome := RewriteWithPrefix(bytes, io);
      if outcome.Failed? && !canClose {
        var error := RecordFailure(outcome.error);
        outcome := Failed(error);
      }
      var callback := CompletionCallback(outcome);
      Settle(outcome, callback);
    }

    method RewriteWithPrefix(bytes: Bytes, io: Io) returns (outcome: Outcome)
      modifies `disk, `buffer, `failure, `canClose, `written
      ensures (Value(), outcome) == PrefixBytes(old(Value()), bytes, io)
    {
      if failure.Some? {
        return Failed(failure.value);
      }
      if bytes == [] {
        outcome := Complete(io.seal);
        return;
      }
      if canClose {
        return Failed(AlreadyCompleted);
      }
      outcome := FlushBuffer(io.flush);
      if outcome.Failed? {
        return;
      }
      if !io.opens {
        return Failed(Device(io.write.code));
      }
      var prefix := bytes;
      prefix := prefix + disk;
      if fileLength.Some? && |prefix| > fileLength.value {
        return Failed(ExceedsLength);
      }
      if !io.truncates {
        return Failed(Device(io.write.code));
      }
      if !io.write.ok {
        disk := prefix[..Min(io.write.moved, |prefix|)];
        return Failed(Device(io.write.code));
      }
      disk := prefix;
      written := |prefix|;
      outcome := Complete(io.seal);
    }

    method FlushFile(io: Io) returns (outcome: Outcome)
      modifies this
      ensures var region := Locked(old(Value()), Flush, io);
              Value() == region.w && outcome == region.outcome && Settled(region, old(listed), old(dispatched))
    {
      outcome := FlushBuffer(io.flush);
      if outcome.Ready? {
        outcome := Complete(io.seal);
      }
      var callback := CompletionCallback(outcome);
      Settle(outcome, callback);
    }

    method SetFileLength(length: nat, io: Io) returns (outcome: Outcome)
      modifies this
      ensures var region := Locked(old(Value()), SetLength(length), io);
              Value() == region.w && outcome == region.outcome && Settled(region, old(listed), old(dispatched))
    {
      if fileLength.None? {
        fileLength := Some(length);
      }
      outcome := Complete(io.seal);
      var callback := CompletionCallback(outcome);
      Settle(outcome, callback);
    }

    method RegisterFinishingCallback(id: CallbackId, io: Io) returns (outcome: Outcome)
      modifies this
      ensures var region := Locked(old(Value()), Register(id), io);
              Value() == region.w && outcome == region.outcome && Settled(region, old(listed), old(dispatched))
    {
      finishingCallback := Some(id);
      outcome := Complete(io.seal);
      var callback := CompletionCallback(outcome);
      Settle(outcome, callback);
    }

    /** FIN, undisturbed: a mismatch fails the writer and drops its callback, otherwise the length is set. */
    method FinishReceived(received: nat, io: Io)
      modifies this
      ensures var w := old(Value());
              if FinishMismatch(w, received) then
                && Value() == FinishCheck(w, received).(callback := None)
                && !listed && dispatched == old(dispatched)
              else
                var region := Locked(w, SetLength(received), io);
                Value() == region.w && Settled(region, old(listed), old(dispatched))
    {
      if fileLength.Some? && fileLength.value != received {
        var error := RecordFailure(LengthMismatch);
        finishingCallback := None;
        Settle(Failed(error), None);
      } else {
        var _ := SetFileLength(received, io);
      }
    }

    /** Yes means exactly this: nothing failed, nothing is buffered, and the disk holds the declared length. */
    method IsFileWritten() returns (answer: Option<bool>)
      ensures answer.None? <==> failure.Some? || fileLength.None?
      ensures answer == Some(true) ==> canClose
      ensures answer == Some(true) && Sound(Value()) ==>
        buffer == [] && fileLength == Some(|disk|) && disk == Value().Content()
      ensures answer == Some(false) ==> !canClose
    {
      if failure.Some? || fileLength.None? {
        return None;
      }
      answer := Some(canClose);
    }

    /** Settlement of a region seen from the object. */
    ghost predicate Settled(region: Region, wasListed: bool, queue: seq<CallbackId>)
      reads this
    {
      && listed == (wasListed && region.outcome == Ready(false))
      && dispatched == queue + if region.taken.Some? then [region.taken.value] else []
    }
  }
}
