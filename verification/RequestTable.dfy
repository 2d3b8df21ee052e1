/**
 * One entry of the request table: how body packets are kept in memory, prefixed to a file, or queued
 * for the file worker, and what the finished event carries.
 */
module RequestTable {
  import opened Basics
  import opened FileWriter

  /** Where a route wants its request bodies. */
  datatype Mode = Stream | InMemory | OnDisk

  /** `named` stands for method, path and headers being known; `writer` for an opened file. */
  datatype Entry = Entry(mode: Option<Mode>, named: bool, body: Bytes, size: nat, writer: bool)

  /** The entry made by the first data packet, before the headers were processed. */
  const EARLY_ENTRY: Entry := Entry(Some(InMemory), false, [], 0, false)

  /** Header processing found no entry and creates one. */
  function FreshEntry(mode: Option<Mode>, hasFile: bool): Entry {
    Entry(mode, true, [], 0, mode == Some(OnDisk) && hasFile)
  }

  /** Header processing completes an early entry: its storage mode and file are replaced. */
  function Completed(entry: Entry, mode: Option<Mode>, hasFile: bool): Entry {
    entry.(mode := mode, named := true, writer := mode == Some(OnDisk) && hasFile)
  }

  /** What writing one packet asks of the file: bytes to put first, and bytes to queue. */
  datatype Effect = Effect(entry: Entry, prefix: Option<Bytes>, queued: Option<Bytes>)

  /** The in-memory bytes leave the entry; they reach the file only if there is one. */
  function FlushAndPrefix(entry: Entry): Effect {
    Effect(entry.(body := []), if entry.writer && entry.body != [] then Some(entry.body) else None, None)
  }

  function WritePacket(entry: Entry, packet: Bytes): Effect {
    match entry.mode
    case Some(InMemory) =>
      Effect(entry.(body := entry.body + packet, size := entry.size + |packet|), None, None)
    case Some(OnDisk) =>
      var flushed := FlushAndPrefix(entry);
      if entry.writer then
        flushed.(entry := flushed.entry.(size := entry.size + |packet|), queued := Some(packet))
      else flushed
    case _ => Effect(entry, None, None)
  }

  /** The finished event hands the body, the received size and the writer to the route handler. */
  datatype Finished = Finished(mode: Option<Mode>, body: Bytes, size: nat, writer: bool)

  // ---------- the objects ----------

  datatype WritableItem = WritableItem(data: Bytes, writer: FileWriterHandle)

  /** A file worker: one FIFO of writes, served one at a time. */
  class FileWorker {
    var queue: seq<WritableItem>

    constructor ()
      ensures queue == []
    {
      queue := [];
    }

    method Send(item: WritableItem)
      modifies this
      ensures queue == old(queue) + [item]
    {
      queue := queue + [item];
    }

    method ServeOne(io: Io)
      requires queue != []
      modifies this, queue[0].writer
      ensures queue == old(queue)[1..]
      ensures var item := old(queue)[0];
              item.writer.Value() == Locked(old(item.writer.Value()), Write(item.data), io).w
    {
      var item := queue[0];
      queue := queue[1..];
      var _ := item.writer.WriteOnDisk(item.data, io);
    }
  }

  /** A route's listener for body data; what it was told, in order. */
  class Subscriber {
    var seen: seq<Bytes>

    constructor ()
      ensures seen == []
    {
      seen := [];
    }

    method OnData(packet: Bytes)
      modifies this
      ensures seen == old(seen) + [packet]
    {
      seen := seen + [packet];
    }
  }

  /** Packets a listener is told of: those of streamed bodies and of bodies kept in a file. */
  predicate TellsListener(mode: Option<Mode>) {
    mode == Some(Stream) || mode == Some(OnDisk)
  }

  class PartialReq {
    var mode: Option<Mode>
    var named: bool
    var body: Bytes
    var size: nat
    var fileOpened: FileWriterHandle?
    var subscriber: Subscriber?
    const worker: FileWorker

    ghost function Value(): Entry
      reads this
    {
      Entry(mode, named, body, size, fileOpened != null)
    }

    constructor (worker: FileWorker)
      ensures Value() == EARLY_ENTRY && this.worker == worker && fileOpened == null && subscriber == null
    {
      mode, named, body, size, fileOpened, subscriber := Some(InMemory), false, [], 0, null, null;
      this.worker := worker;
    }

    method CompleteEntry(newMode: Option<Mode>, file: FileWriterHandle?, listener: Subscriber?)
      requires file != null ==> newMode == Some(OnDisk)
      modifies this
      ensures Value() == Completed(old(Value()), newMode, file != null) && fileOpened == file && subscriber == listener
    {
      mode, named, fileOpened, subscriber := newMode, true, file, listener;
    }

    method FlushAndPrefixWithTempBuffer(io: Io)
      modifies `body, fileOpened
      ensures var effect := FlushAndPrefix(old(Value()));
              && Value() == effect.entry && fileOpened == old(fileOpened)
              && (fileOpened != null ==>
                    fileOpened.Value() == if effect.prefix.None? then old(fileOpened.Value())
                                          else Locked(old(fileOpened.Value()), Prefix(effect.prefix.value), io).w)
    {
      if |body| == 0 {
        return;
      }
      var firstBytes := body;
      body := [];
      if fileOpened != null {
        var _ := fileOpened.TransferBytesFromTempFile(firstBytes, io);
      }
    }

    method WriteFile(packet: Bytes)
      modifies `size, worker
      ensures size == old(size) + if fileOpened != null then |packet| else 0
      ensures worker.queue
              == old(worker.queue) + if fileOpened != null then [WritableItem(packet, fileOpened)] else []
    {
      if fileOpened != null {
        worker.Send(WritableItem(packet, fileOpened));
        size := size + |packet|;
      }
    }

    method ExtendData(packet: Bytes)
      modifies `body, `size
      ensures body == old(body) + packet && size == old(size) + |packet|
    {
      size := size + |packet|;
      body := body + packet;
    }

    /** A packet of the request body, in whatever mode the entry is at this moment. */
    method WriteBodyPacket(packet: Bytes, io: Io)
      requires fileOpened != null ==> mode == Some(OnDisk)
      modifies this, worker, fileOpened, subscriber
      ensures var effect := WritePacket(old(Value()), packet);
              && Value() == effect.entry && fileOpened == old(fileOpened)
              && (fileOpened != null ==>
                    fileOpened.Value() == if effect.prefix.None? then old(fileOpened.Value())
                                          else Locked(old(fileOpened.Value()), Prefix(effect.prefix.value), io).w)
              && (if effect.queued.None? then worker.queue == old(worker.queue)
                  else worker.queue == old(worker.queue) + [WritableItem(effect.queued.value, fileOpened)])
      ensures subscriber == old(subscriber)
      ensures subscriber != null ==>
                subscriber.seen == old(subscriber.seen) + if TellsListener(old(mode)) then [packet] else []
    {
      if TellsListener(mode) && subscriber != null {
        subscriber.OnData(packet);
      }
      match mode {
        case Some(InMemory) => ExtendData(packet);
        case Some(OnDisk) =>
          FlushAndPrefixWithTempBuffer(io);
          WriteFile(packet);
        case _ =>
      }
    }

    /** FIN, undisturbed by other threads: prefix what is in memory, tell the writer, hand out. */
    method ToFinishedEvent(prefixIo: Io, io: Io) returns (event: Option<Finished>)
      requires fileOpened != null ==> mode == Some(OnDisk)
      modifies this, fileOpened
      ensures var kept := if mode == Some(OnDisk) then [] else old(body);
              event == if !named then None else Some(Finished(mode, kept, size, old(fileOpened) != null))
      ensures mode == old(mode) && named == old(named) && size == old(size)
      ensures named ==> fileOpened == null
      ensures old(fileOpened) != null && named ==>
                var file := old(fileOpened);
                var before := old(fileOpened.Value());
                var prefix := FlushAndPrefix(old(Value())).prefix;
                var mid := if prefix.Some? then Locked(before, Prefix(prefix.value), prefixIo).w else before;
                file.Value() == if FinishMismatch(mid, size) then FinishCheck(mid, size).(callback := None)
                                else Locked(mid, SetLength(size), io).w
    {
      if mode == Some(OnDisk) {
        FlushAndPrefixWithTempBuffer(prefixIo);
      }
      if !named {
        return None;
      }
      if fileOpened != null {
        fileOpened.FinishReceived(size, io);
      }
      event := Some(Finished(mode, body, size, fileOpened != null));
      fileOpened := null;
      body := [];
    }
  }
}
