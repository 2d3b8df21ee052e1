/**
 * The network loop's client: maps keyed by stream, updated in place. Each method does to one stream what
 * `Delivery` says, and leaves every other stream alone.
 */
module Client {
  import opened Basics
  import opened BodyQueue
  import opened Delivery

  class Client {
    var headersSent: map<nat, bool>
    var partials: map<nat, Partial>
    var tracker: map<nat, (nat, nat)>
    /** Items waiting in front of their streams' queues. */
    const pending: BodyReqQueue<Item>
    /** The dispatch map, shared with the response workers and the chunker. */
    var queues: map<nat, Queue>
    var chunking: map<nat, Bytes>
    /** What the QUIC connection did so far. */
    var wires: map<nat, Wire>

    ghost predicate Valid()
      reads this, pending
    {
      && pending.Valid()
      && (forall id | id in partials :: partials[id].written <= |partials[id].body|)
      && (forall id | id in queues :: id in wires)
    }

    function View(id: nat): Stream
      reads this, pending
    {
      Stream(
        id in headersSent && headersSent[id],
        if id in partials then Some(partials[id]) else None,
        if id in tracker then Some(tracker[id]) else None,
        Waiting(pending.queue, id),
        if id in queues then Some(queues[id]) else None,
        if id in chunking then Some(chunking[id]) else None,
        if id in wires then wires[id] else NO_WIRE)
    }

    constructor ()
      ensures Valid() && fresh(pending)
      ensures forall id :: View(id) == FRESH.(queue := None)
    {
      headersSent, partials, tracker := map[], map[], map[];
      queues, chunking, wires := map[], map[], map[];
      pending := new BodyReqQueue();
    }

    method InsertNewChannel(id: nat)
      requires Valid()
      modifies this, pending
      ensures Valid()
      ensures View(id) == if old(id in queues) then old(View(id)) else old(View(id)).(queue := FRESH.queue)
      ensures forall j | j != id :: View(j) == old(View(j))
    {
      if id !in queues {
        queues := queues[id := Queue([], [], false)];
        if id !in wires {
          wires := wires[id := FRESH.wire];
        }
      }
    }

    method TransportSend(id: nat, data: Bytes, fin: bool, a: Answer)
      requires Valid()
      modifies this`wires
      ensures Valid() && View(id) == old(View(id)).(wire := Transmit(old(View(id)).wire, data, fin, a))
      ensures forall j | j != id :: View(j) == old(View(j))
    {
      wires := wires[id := Transmit(View(id).wire, data, fin, a)];
    }

    method TransportHeaders(id: nat, mode: Mode, end: bool, ha: HeadAnswer)
      requires Valid()
      modifies this`wires
      ensures Valid() && View(id) == old(View(id)).(wire := TransmitHeaders(old(View(id)).wire, mode, end, ha))
      ensures forall j | j != id :: View(j) == old(View(j))
    {
      wires := wires[id := TransmitHeaders(View(id).wire, mode, end, ha)];
    }

    /** Park the rest of a chunk, or forget it. */
    method SetPartial(id: nat, partial: Option<Partial>)
      requires Valid() && (partial.Some? ==> partial.value.written <= |partial.value.body|)
      modifies this`partials
      ensures Valid() && View(id) == old(View(id)).(partial := partial)
      ensures forall j | j != id :: View(j) == old(View(j))
    {
      partials := if partial.Some? then partials[id := partial.value] else partials - {id};
    }

    method SetHeadersSent(id: nat)
      requires Valid()
      modifies this`headersSent
      ensures Valid() && View(id) == old(View(id)).(headersSent := true)
      ensures forall j | j != id :: View(j) == old(View(j))
    {
      headersSent := headersSent[id := true];
    }

    /** The body's length enters the tracker and the body goes to the chunker. */
    method StartBody(id: nat, body: Bytes)
      requires Valid()
      modifies this`tracker, this`chunking
      ensures Valid() && View(id) == old(View(id)).(tracker := Some((0, |body|)), chunking := Some(body))
      ensures forall j | j != id :: View(j) == old(View(j))
    {
      tracker := tracker[id := (0, |body|)];
      chunking := chunking[id := body];
    }

    method RemoveQueues(id: nat)
      requires Valid()
      modifies this`queues, pending
      ensures Valid() && View(id) == old(View(id)).(pending := [], queue := None)
      ensures forall j | j != id :: View(j) == old(View(j))
    {
      pending.RemoveStreamQueue(id);
      queues := queues - {id};
    }

    method SetWritten(id: nat, written: nat)
      requires Valid()
      modifies this`tracker
      ensures Valid() && View(id) == old(View(id)).(tracker := AddWritten(old(View(id)).tracker, written))
      ensures forall j | j != id :: View(j) == old(View(j))
    {
      if id in tracker {
        tracker := tracker[id := (tracker[id].0 + written, tracker[id].1)];
      }
    }

    /** `send_body_response` and, without an end of stream, `send_body_response_progression`. */
    method SendPart(id: nat, data: Bytes, fin: bool, a: Answer) returns (ok: bool)
      requires Valid()
      modifies this, pending
      ensures Valid() && (View(id), ok) == Delivery.SendPart(old(View(id)), data, fin, a)
      ensures forall j | j != id :: View(j) == old(View(j))
      ensures queues == old(queues)
    {
      TransportSend(id, data, fin, a);
      if a.Fatal? {
        return false;
      }
      var written := Count(data, a);
      if written < |data| {
        SetPartial(id, Some(Partial(false, data, written)));
      }
      SetWritten(id, written);
      ok := true;
    }

    method PushItemOnFront(id: nat, item: Item)
      requires Valid()
      modifies pending
      ensures Valid() && View(id) == PushFront(old(View(id)), item)
      ensures forall j | j != id :: View(j) == old(View(j))
    {
      pending.PushItemOnFront(id, item);
    }

    method ResetFailedStream(id: nat)
      requires Valid()
      modifies this, pending
      ensures Valid() && View(id) == ResetFailed(old(View(id)))
      ensures forall j | j != id :: View(j) == old(View(j))
      ensures queues == old(queues) - {id}
    {
      wires := wires[id := View(id).wire.(dead := true)];
      headersSent := headersSent - {id};
      partials := partials - {id};
      pending.RemoveStreamQueue(id);
      queues := queues - {id};
    }

    /** Every requested reset is honoured before anything else is sent. */
    method HonourResets()
      requires Valid()
      modifies this, pending
      ensures Valid() && forall id :: View(id) == Sweep(old(View(id)))
    {
      var todo: set<nat> := set id | id in queues && queues[id].reset;
      while todo != {}
        invariant Valid()
        invariant forall id :: View(id) == if id in todo then old(View(id)) else Sweep(old(View(id)))
        invariant forall id | id in todo :: id in old(queues) && old(queues)[id].reset
        decreases |todo|
      {
        var id :| id in todo;
        todo := todo - {id};
        ResetFailedStream(id);
      }
    }

    /** A writable stream: headers that were parked go first, then what is parked of the body. */
    method HandleWritable(id: nat, ha: HeadAnswer, a: Answer, fa: Answer)
      requires Valid()
      modifies this, pending
      ensures Valid() && View(id) == Delivery.HandleWritable(old(View(id)), ha, a, fa)
      ensures forall j | j != id :: View(j) == old(View(j))
    {
      if id !in partials {
        return;
      }
      if partials[id].headers {
        TransportHeaders(id, SendHeader, false, ha);
        if !ha.Sent? {
          return;
        }
        SetPartial(id, Some(partials[id].(headers := false)));
      }
      ResumePart(id, a, fa);
    }

    method ResumePart(id: nat, a: Answer, fa: Answer)
      requires Valid() && id in partials
      modifies this, pending
      ensures Valid() && View(id) == Delivery.Resume(old(View(id)), a, fa)
      ensures forall j | j != id :: View(j) == old(View(j))
    {
      var (already, total) := Written(View(id).tracker);
      var part := partials[id];
      TransportSend(id, part.body[part.written..], false, a);
      if a.Fatal? {
        SetPartial(id, None);
        return;
      }
      Taken(id, part, Count(part.body[part.written..], a), already, total, fa);
    }

    /** `written` more bytes of the parked part were taken. */
    method Taken(id: nat, part: Partial, written: nat, already: nat, total: nat, fa: Answer)
      requires Valid() && part.written + written <= |part.body|
      modifies this, pending
      ensures Valid()
      ensures var (s, taken) := (old(View(id)), Some(part.(written := part.written + written)));
        var ended := s.(wire := Transmit(s.wire, [], true, fa));
        var counted := AddWritten(s.tracker, written);
        View(id) ==
          if part.written + written == |part.body| then
            if written + already == total then
              if fa.Fatal? then ended.(partial := taken) else ended.(tracker := counted, partial := None)
            else s.(tracker := counted, partial := None)
          else if written > 0 then s.(tracker := counted, partial := taken)
          else if part.written + already == total then
            if fa.Fatal? then ended.(partial := None) else ended.(partial := taken)
          else s.(partial := taken)
      ensures forall j | j != id :: View(j) == old(View(j))
    {
      SetPartial(id, Some(part.(written := part.written + written)));
      if part.written + written == |part.body| {
        if written + already == total {
          TransportSend(id, [], true, fa);
          if fa.Fatal? {
            return;
          }
        }
        SetWritten(id, written);
        SetPartial(id, None);
      } else if written > 0 {
        SetWritten(id, written);
      } else if part.written + already == total {
        TransportSend(id, [], true, fa);
        if fa.Fatal? {
          SetPartial(id, None);
        }
      }
    }

    method ServeBody(id: nat, data: Bytes, a: Answer, fa: Answer)
      requires Valid()
      modifies this, pending
      ensures Valid() && View(id) == Delivery.ServeBody(old(View(id)), data, a, fa)
      ensures forall j | j != id :: View(j) == old(View(j))
    {
      var rest := data;
      if !View(id).headersSent {
        SetPartial(id, Some(Partial(false, rest, 0)));
        rest := [];
      }
      var (already, total) := Written(View(id).tracker);
      var ok := SendPart(id, rest, already == total, a);
      if !ok {
        PushItemOnFront(id, Body([]));
      } else if TotallyWritten(View(id).tracker) {
        var _ := SendPart(id, [], true, fa);
        RemoveQueues(id);
      }
    }

    method ServeStreamData(id: nat, data: Bytes, a: Answer)
      requires Valid()
      modifies this, pending
      ensures Valid() && View(id) == Delivery.ServeStreamData(old(View(id)), data, a)
      ensures forall j | j != id :: View(j) == old(View(j))
    {
      var ok := SendPart(id, data, false, a);
      if !ok {
        PushItemOnFront(id, StreamData([]));
      }
    }

    method ServeProgression(id: nat, data: Bytes, a: Answer)
      requires Valid()
      modifies this, pending
      ensures Valid() && View(id) == Delivery.ServeProgression(old(View(id)), data, a)
      ensures forall j | j != id :: View(j) == old(View(j))
    {
      var ok := SendPart(id, data, false, a);
      if !ok {
        PushItemOnFront(id, BodyProgression([]));
      }
    }

    method ServeHeader(id: nat, item: Item, ha: HeadAnswer)
      requires Valid() && item.Header?
      modifies this, pending
      ensures Valid() && View(id) == Delivery.ServeHeader(old(View(id)), item, ha)
      ensures forall j | j != id :: View(j) == old(View(j))
    {
      match item.mode
      case OpenStream =>
        TransportHeaders(id, OpenStream, false, ha);
        match ha {
          case Sent => SetHeadersSent(id);
          case Blocked => PushItemOnFront(id, item);
          case Refused => ResetFailedStream(id);
        }
      case SendHeader100 =>
        TransportHeaders(id, SendHeader100, item.isEnd, ha);
        if !ha.Sent? {
          PushItemOnFront(id, item);
        }
      case _ => ServeResponseHeader(id, item, ha);
    }

    method ServeResponseHeader(id: nat, item: Item, ha: HeadAnswer)
      requires Valid() && item.Header? && (item.mode == SendHeader || item.mode == SendAdditionalHeader)
      modifies this, pending
      ensures Valid() && View(id) == Delivery.ServeHeader(old(View(id)), item, ha)
      ensures forall j | j != id :: View(j) == old(View(j))
    {
      TransportHeaders(id, item.mode, EndsOnHeaders(item), ha);
      if !ha.Sent? {
        PushItemOnFront(id, item);
        return;
      }
      if item.mode == SendHeader || item.attached.Some? {
        SetHeadersSent(id);
      }
      if AttachedBody(item).Some? {
        StartBody(id, AttachedBody(item).value);
      }
    }

    /** The next item is taken from the blocked opening or from the queues, high priority first. */
    method TakeNext(id: nat) returns (next: Option<Item>)
      requires Valid()
      modifies this, pending
      ensures Valid()
      ensures match NextItem(old(View(id))) {
          case None => next.None? && View(id) == old(View(id))
          case Some(found) => next == Some(found.0) && View(id) == found.1
        }
      ensures forall j | j != id :: View(j) == old(View(j))
    {
      if id in partials {
        return None;
      }
      next := pending.PopFrontIf(id, (item: Item) => item.Header? && item.mode == OpenStream);
      if next.Some? {
        return;
      }
      var empty := pending.IsStreamQueueEmpty(id);
      if empty {
        next := TakeQueued(id);
      }
    }

    method TakeQueued(id: nat) returns (next: Option<Item>)
      requires Valid() && View(id).partial.None? && View(id).pending == []
      modifies this`queues
      ensures Valid()
      ensures match NextItem(old(View(id))) {
          case None => next.None? && View(id) == old(View(id))
          case Some(found) => next == Some(found.0) && View(id) == found.1
        }
      ensures forall j | j != id :: View(j) == old(View(j))
    {
      if id !in queues {
        return None;
      }
      var q := queues[id];
      if q.high != [] {
        queues := queues[id := q.(high := q.high[1..])];
        return Some(q.high[0]);
      }
      if q.low != [] {
        queues := queues[id := q.(low := q.low[1..])];
        return Some(q.low[0]);
      }
      next := None;
    }

    method ServeItem(id: nat, item: Item, a: Answer, fa: Answer, ha: HeadAnswer)
      requires Valid()
      modifies this, pending
      ensures Valid() && View(id) == Delivery.ServeItem(old(View(id)), item, a, fa, ha)
      ensures forall j | j != id :: View(j) == old(View(j))
    {
      match item
      case Header(_, _, _) => ServeHeader(id, item, ha);
      case Body(data) => ServeBody(id, data, a, fa);
      case StreamData(data) => ServeStreamData(id, data, a);
      case BodyProgression(data) => ServeProgression(id, data, a);
    }

    method ServeStream(id: nat, a: Answer, fa: Answer, ha: HeadAnswer)
      requires Valid()
      modifies this, pending
      ensures Valid() && View(id) == Serve(old(View(id)), a, fa, ha)
      ensures forall j | j != id :: View(j) == old(View(j))
    {
      var next := TakeNext(id);
      if next.Some? {
        ServeItem(id, next.value, a, fa, ha);
      }
    }

    method Send(id: nat, item: Item) returns (ok: bool)
      requires Valid()
      modifies this`queues
      ensures Valid() && View(id) == Enqueue(old(View(id)), item) && ok == (id in old(queues))
      ensures forall j | j != id :: View(j) == old(View(j))
    {
      if id !in queues {
        return false;
      }
      var q := queues[id];
      queues := queues[id := if item.Header? then q.(high := q.high + [item]) else q.(low := q.low + [item])];
      ok := true;
    }

    method RequestStreamReset(id: nat) returns (ok: bool)
      requires Valid()
      modifies this`queues
      ensures Valid() && View(id) == RequestReset(old(View(id))) && ok == (id in old(queues))
      ensures forall j | j != id :: View(j) == old(View(j))
    {
      if id !in queues {
        return false;
      }
      queues := queues[id := queues[id].(reset := true)];
      ok := true;
    }

    /**
     * The opening is queued before the callback runs, and the callback (here: the data it publishes and
     * whether it succeeds) does not run when the opening cannot be queued; its failure asks for a reset.
     */
    method OpenStreamThenCall(id: nat, published: seq<Bytes>, succeeds: bool) returns (ok: bool, called: bool)
      requires Valid()
      modifies this`queues
      ensures Valid() && called == (id in old(queues)) && ok == (called && succeeds)
      ensures View(id) ==
        if !called then old(View(id))
        else
          var s := PublishAll(Enqueue(old(View(id)), Header(OpenStream, false, None)), published);
          if succeeds then s else RequestReset(s)
      ensures forall j | j != id :: View(j) == old(View(j))
    {
      called := Send(id, Header(OpenStream, false, None));
      if !called {
        return false, false;
      }
      ghost var start := View(id);
      for i := 0 to |published|
        invariant Valid() && id in queues
        invariant PublishAll(start, published) == PublishAll(View(id), published[i..])
        invariant forall j | j != id :: View(j) == old(View(j))
      {
        assert published[i..][1..] == published[i + 1..];
        var _ := Send(id, StreamData(published[i]));
      }
      if !succeeds {
        var _ := RequestStreamReset(id);
        return false, true;
      }
      ok := true;
    }
  }

  /** Messages queued one after the other. */
  function PublishAll(s: Stream, messages: seq<Bytes>): Stream
    decreases |messages|
  {
    if messages == [] then s else PublishAll(Enqueue(s, StreamData(messages[0])), messages[1..])
  }
}
