/**
 * The chunker: one worker shared by all response bodies. It takes a body from the front of the work channel,
 * reads one packet of it, and puts an unfinished body at the back.
 */
module Chunker {
  import opened Basics
  import opened Delivery

  /** A body being chunked; `rest` is what its reader has not returned yet. */
  datatype Chunkable = Chunkable(stream: nat, rest: Bytes, bodyLen: nat, packetId: nat, bytesWritten: nat)

  datatype Packet = Packet(stream: nat, id: nat, data: Bytes, last: bool)

  /** What the worker meets: a full queue, a read of `n` bytes, or a read error. */
  datatype Turn = Occupied | Reads(n: nat) | Fails

  /** `bodies` remembers every body ever submitted, `failed` those whose read failed. */
  datatype Sys = Sys(work: seq<Chunkable>, sent: seq<Packet>, bodies: map<nat, Bytes>, failed: set<nat>)

  datatype Step = Submit(stream: nat, body: Bytes) | Work(turn: Turn)

  /** A stable reader returns at most a buffer, and nothing only at its end. */
  predicate CanRead(rest: Bytes, n: nat) {
    n <= CHUNK_SIZE && n <= |rest| && (n == 0 ==> rest == [])
  }

  /** A stream submits one non-empty body. */
  function SubmitBody(s: Sys, stream: nat, body: Bytes): Sys {
    if stream in s.bodies || body == [] then s
    else s.(work := s.work + [Chunkable(stream, body, |body|, 0, 0)], bodies := s.bodies[stream := body])
  }

  function PacketOf(c: Chunkable, n: nat): Packet
    requires n <= |c.rest|
  {
    Packet(c.stream, c.packetId, c.rest[..n], n + c.bytesWritten == c.bodyLen)
  }

  function Advanced(c: Chunkable, n: nat): Chunkable
    requires n <= |c.rest|
  {
    c.(rest := c.rest[n..], packetId := c.packetId + 1, bytesWritten := c.bytesWritten + n)
  }

  function TakeTurn(s: Sys, turn: Turn): Sys {
    if s.work == [] then s
    else
      var (c, others) := (s.work[0], s.work[1..]);
      match turn
      case Occupied => s.(work := others + [c])
      case Fails => s.(work := others, failed := s.failed + {c.stream})
      case Reads(n) =>
        if !CanRead(c.rest, n) then s
        else
          var p := PacketOf(c, n);
          s.(work := if p.last then others else others + [Advanced(c, n)], sent := s.sent + [p])
  }

  function Apply(s: Sys, step: Step): Sys {
    match step
    case Submit(stream, body) => SubmitBody(s, stream, body)
    case Work(turn) => TakeTurn(s, turn)
  }

  function Run(s: Sys, steps: seq<Step>): Sys
    decreases |steps|
  {
    if steps == [] then s else Run(Apply(s, steps[0]), steps[1..])
  }

  const START: Sys := Sys([], [], map[], {})

  // ---------- one stream's packets ----------

  function Of(sent: seq<Packet>, stream: nat): seq<Packet>
    decreases |sent|
  {
    if sent == [] then []
    else
      var (front, last) := (Of(sent[..|sent| - 1], stream), sent[|sent| - 1]);
      if last.stream == stream then front + [last] else front
  }

  lemma OfSnoc(sent: seq<Packet>, p: Packet, stream: nat)
    ensures Of(sent + [p], stream) == if p.stream == stream then Of(sent, stream) + [p] else Of(sent, stream)
  {
    assert (sent + [p])[..|sent|] == sent;
  }

  function Datas(packets: seq<Packet>): seq<Bytes> {
    seq(|packets|, i requires 0 <= i < |packets| => packets[i].data)
  }

  function Content(packets: seq<Packet>): Bytes {
    Flatten(Datas(packets))
  }

  lemma ContentSnoc(packets: seq<Packet>, p: Packet)
    ensures Content(packets + [p]) == Content(packets) + p.data
  {
    assert Datas(packets + [p]) == Datas(packets) + [p.data];
    FlattenSnoc(Datas(packets), p.data);
  }

  /** Packets as the receiver needs them: numbered from 0, never empty, never larger than a chunk. */
  predicate Numbered(packets: seq<Packet>) {
    forall i | 0 <= i < |packets| :: packets[i].id == i && 0 < |packets[i].data| <= 8192
  }

  predicate NoneLast(packets: seq<Packet>) {
    forall i | 0 <= i < |packets| :: !packets[i].last
  }

  /** Exactly one end mark, on the last packet. */
  predicate OneEnd(packets: seq<Packet>) {
    packets != [] && packets[|packets| - 1].last && NoneLast(packets[..|packets| - 1])
  }

  // ---------- the invariant ----------

  predicate Distinct(work: seq<Chunkable>) {
    forall i, j | 0 <= i < j < |work| :: work[i].stream != work[j].stream
  }

  predicate Waiting(work: seq<Chunkable>, stream: nat) {
    exists i | 0 <= i < |work| :: work[i].stream == stream
  }

  /** A body in the work channel: what was sent, then what is unread, is the body. */
  predicate Halfway(c: Chunkable, packets: seq<Packet>, body: Bytes) {
    && c.rest != [] && Numbered(packets) && NoneLast(packets)
    && Content(packets) + c.rest == body
    && c.packetId == |packets| && c.bytesWritten == |Content(packets)| && c.bodyLen == |body|
  }

  predicate StreamInv(s: Sys, stream: nat) {
    var packets := Of(s.sent, stream);
    if stream !in s.bodies then packets == [] && !Waiting(s.work, stream) && stream !in s.failed
    else if stream in s.failed then
      !Waiting(s.work, stream) && Numbered(packets) && NoneLast(packets) && Content(packets) <= s.bodies[stream]
    else if Waiting(s.work, stream) then
      forall i | 0 <= i < |s.work| && s.work[i].stream == stream :: Halfway(s.work[i], packets, s.bodies[stream])
    else Numbered(packets) && OneEnd(packets) && Content(packets) == s.bodies[stream]
  }

  ghost predicate Inv(s: Sys) {
    Distinct(s.work) && forall stream :: StreamInv(s, stream)
  }

  lemma SubmitInv(s: Sys, stream: nat, body: Bytes)
    requires Inv(s)
    ensures Inv(SubmitBody(s, stream, body))
  {
    var t := SubmitBody(s, stream, body);
    if t != s {
      assert StreamInv(s, stream);
      forall k
        ensures StreamInv(t, k)
      {
        assert StreamInv(s, k);
        if k == stream {
          assert t.work[|s.work|].stream == k;
        } else if Waiting(s.work, k) {
          var i :| 0 <= i < |s.work| && s.work[i].stream == k;
          assert t.work[i].stream == k;
        }
      }
    }
  }

  /** Other streams only see the channel rotate. */
  lemma OthersKeep(s: Sys, turn: Turn, k: nat)
    requires Inv(s) && s.work != [] && k != s.work[0].stream
    ensures StreamInv(TakeTurn(s, turn), k)
  {
    var t := TakeTurn(s, turn);
    assert StreamInv(s, k);
    if turn.Reads? && CanRead(s.work[0].rest, turn.n) {
      OfSnoc(s.sent, PacketOf(s.work[0], turn.n), k);
    }
    assert Of(t.sent, k) == Of(s.sent, k);
    assert Waiting(s.work, k) <==> Waiting(t.work, k) by {
      if Waiting(s.work, k) {
        var i :| 0 <= i < |s.work| && s.work[i].stream == k;
        if t.work != s.work {
          assert t.work[i - 1] == s.work[i];
        }
      }
    }
  }

  /** One more packet of a body: the last one completes it, any other leaves it halfway. */
  lemma PacketAdvances(c: Chunkable, packets: seq<Packet>, body: Bytes, n: nat)
    requires Halfway(c, packets, body) && CanRead(c.rest, n)
    ensures var (p, all) := (PacketOf(c, n), packets + [PacketOf(c, n)]);
      if p.last then Numbered(all) && OneEnd(all) && Content(all) == body else Halfway(Advanced(c, n), all, body)
  {
    var p := PacketOf(c, n);
    ContentSnoc(packets, p);
    assert c.rest == c.rest[..n] + c.rest[n..];
    assert (packets + [p])[..|packets|] == packets;
  }

  lemma FrontIsAlone(work: seq<Chunkable>)
    requires Distinct(work) && work != []
    ensures !Waiting(work[1..], work[0].stream)
  {
    assert forall i | 0 <= i < |work[1..]| :: work[1..][i] == work[i + 1];
  }

  /** A body that joins the channel is the only one of its stream there. */
  lemma OneWaits(others: seq<Chunkable>, c: Chunkable)
    requires !Waiting(others, c.stream)
    ensures Waiting(others + [c], c.stream)
    ensures forall i | 0 <= i <= |others| && (others + [c])[i].stream == c.stream :: (others + [c])[i] == c
  {
    assert (others + [c])[|others|] == c;
  }

  lemma ReadKeeps(s: Sys, n: nat)
    requires Inv(s) && s.work != [] && CanRead(s.work[0].rest, n)
    ensures StreamInv(TakeTurn(s, Reads(n)), s.work[0].stream)
  {
    var (c, t) := (s.work[0], TakeTurn(s, Reads(n)));
    var (k, p) := (c.stream, PacketOf(c, n));
    var packets := Of(s.sent, k);
    assert StreamInv(s, k) && Waiting(s.work, k);
    PacketAdvances(c, packets, s.bodies[k], n);
    OfSnoc(s.sent, p, k);
    FrontIsAlone(s.work);
    if p.last {
      assert t.work == s.work[1..];
    } else {
      assert t.work == s.work[1..] + [Advanced(c, n)];
      OneWaits(s.work[1..], Advanced(c, n));
    }
  }

  /** The stream in front is read further, finished, put back, or given up. */
  lemma FrontKeeps(s: Sys, turn: Turn)
    requires Inv(s) && s.work != []
    ensures StreamInv(TakeTurn(s, turn), s.work[0].stream)
  {
    var (c, t) := (s.work[0], TakeTurn(s, turn));
    assert StreamInv(s, c.stream) && Waiting(s.work, c.stream);
    assert Halfway(c, Of(s.sent, c.stream), s.bodies[c.stream]);
    match turn
    case Occupied => assert t.work[|t.work| - 1] == c;
    case Fails =>
    case Reads(n) =>
      if CanRead(c.rest, n) {
        ReadKeeps(s, n);
      }
  }

  lemma TurnInv(s: Sys, turn: Turn)
    requires Inv(s)
    ensures Inv(TakeTurn(s, turn))
  {
    if s.work != [] {
      forall k
        ensures StreamInv(TakeTurn(s, turn), k)
      {
        if k == s.work[0].stream {
          FrontKeeps(s, turn);
        } else {
          OthersKeep(s, turn, k);
        }
      }
    }
  }

  lemma {:induction false} RunInv(s: Sys, steps: seq<Step>)
    requires Inv(s)
    ensures Inv(Run(s, steps))
    decreases |steps|
  {
    if steps == [] {
    } else {
      match steps[0]
      case Submit(stream, body) => SubmitInv(s, stream, body); RunInv(Apply(s, steps[0]), steps[1..]);
      case Work(turn) => TurnInv(s, turn); RunInv(Apply(s, steps[0]), steps[1..]);
    }
  }

  /**
   * Whatever bodies share the channel and however their queues push back: each body's packets are numbered
   * 0, 1, 2, ..., hold 1 to 8192 bytes, and are a prefix of it; once the body has left the channel without a
   * read error they are all of it, with exactly one end mark, on the last.
   */
  lemma BodiesArriveWhole(steps: seq<Step>, stream: nat)
    requires stream in Run(START, steps).bodies
    ensures var s := Run(START, steps); var (packets, body) := (Of(s.sent, stream), s.bodies[stream]);
      && Numbered(packets) && Content(packets) <= body
      && (!Waiting(s.work, stream) && stream !in s.failed ==> Content(packets) == body && OneEnd(packets))
      && (Waiting(s.work, stream) || stream in s.failed ==> NoneLast(packets))
  {
    RunInv(START, steps);
    var s := Run(START, steps);
    assert StreamInv(s, stream);
    if Waiting(s.work, stream) {
      var i :| 0 <= i < |s.work| && s.work[i].stream == stream;
      assert Halfway(s.work[i], Of(s.sent, stream), s.bodies[stream]);
    }
  }

  /** A body that is submitted is the one remembered, whatever is submitted and sent later. */
  lemma {:induction false} BodiesStay(s: Sys, steps: seq<Step>, stream: nat)
    requires stream in s.bodies
    ensures stream in Run(s, steps).bodies && Run(s, steps).bodies[stream] == s.bodies[stream]
    decreases |steps|
  {
    if steps == [] {
    } else {
      BodiesStay(Apply(s, steps[0]), steps[1..], stream);
    }
  }

  lemma {:induction false} RunConcat(s: Sys, first: seq<Step>, second: seq<Step>)
    ensures Run(s, first + second) == Run(Run(s, first), second)
    decreases |first|
  {
    if first == [] {
      assert first + second == second;
    } else {
      assert (first + second)[1..] == first[1..] + second;
      RunConcat(Apply(s, first[0]), first[1..], second);
    }
  }

  /** A first, non-empty body of a stream joins the back of the channel, unread and unnumbered. */
  lemma SubmitQueuesBody(s: Sys, stream: nat, body: Bytes)
    requires stream !in s.bodies && body != []
    ensures var t := Apply(s, Submit(stream, body));
      t.work == s.work + [Chunkable(stream, body, |body|, 0, 0)] && t.bodies == s.bodies[stream := body]
      && t.sent == s.sent && t.failed == s.failed
  {
  }

  /**
   * From submission to the last packet: the submitted body itself is what the packets of its stream carry, in
   * order and as a prefix, and all of it once the channel has let go of it without a read error.
   */
  lemma SubmittedBodyArrivesWhole(before: seq<Step>, stream: nat, body: Bytes, after: seq<Step>)
    requires stream !in Run(START, before).bodies && body != []
    ensures var s := Run(START, before + [Submit(stream, body)] + after); var packets := Of(s.sent, stream);
      && Content(packets) <= body
      && (!Waiting(s.work, stream) && stream !in s.failed ==> Content(packets) == body && OneEnd(packets))
  {
    var s := Run(START, before);
    SubmitQueuesBody(s, stream, body);
    var t := Apply(s, Submit(stream, body));
    assert [Submit(stream, body)][1..] == [] && Run(s, [Submit(stream, body)]) == t by {
      assert Run(t, []) == t;
    }
    RunConcat(START, before, [Submit(stream, body)]);
    RunConcat(START, before + [Submit(stream, body)], after);
    BodiesStay(t, after, stream);
    BodiesArriveWhole(before + [Submit(stream, body)] + after, stream);
  }

  // ---------- progress ----------

  function Unread(work: seq<Chunkable>): nat {
    if work == [] then 0 else |work[0].rest| + Unread(work[1..])
  }

  lemma {:induction false} UnreadConcat(a: seq<Chunkable>, b: seq<Chunkable>)
    ensures Unread(a + b) == Unread(a) + Unread(b)
    decreases |a|
  {
    if a == [] {
      assert a + b == b;
    } else {
      assert (a + b)[1..] == a[1..] + b;
      UnreadConcat(a[1..], b);
    }
  }

  /** A successful read shortens the unread total by exactly what it sent; a full queue changes nothing of it. */
  lemma ReadsShorten(s: Sys, turn: Turn)
    requires Inv(s) && s.work != [] && !turn.Fails?
    ensures var t := TakeTurn(s, turn);
      && (turn.Occupied? ==> Unread(t.work) == Unread(s.work))
      && (turn.Reads? && CanRead(s.work[0].rest, turn.n) ==> turn.n > 0 && Unread(t.work) == Unread(s.work) - turn.n)
  {
    var (c, others) := (s.work[0], s.work[1..]);
    assert StreamInv(s, c.stream) && Waiting(s.work, c.stream);
    assert Halfway(c, Of(s.sent, c.stream), s.bodies[c.stream]);
    UnreadConcat(others, [c]);
    assert Unread([c]) == |c.rest| + Unread([c][1..]);
    if turn.Reads? && CanRead(c.rest, turn.n) {
      var d := Advanced(c, turn.n);
      UnreadConcat(others, [d]);
      assert Unread([d]) == |d.rest| + Unread([d][1..]);
    }
  }

  /** Every turn brings each waiting body one place closer to the front. */
  lemma TurnsRotate(s: Sys, turn: Turn, i: nat)
    requires 0 < i < |s.work| && (turn.Reads? ==> CanRead(s.work[0].rest, turn.n))
    ensures i - 1 < |TakeTurn(s, turn).work| && TakeTurn(s, turn).work[i - 1] == s.work[i]
  {
  }

  predicate AllRead(s: Sys, turns: seq<Turn>)
    decreases |turns|
  {
    turns == [] || s.work == [] ||
    (turns[0].Reads? && CanRead(s.work[0].rest, turns[0].n) && AllRead(TakeTurn(s, turns[0]), turns[1..]))
  }

  function Turns(s: Sys, turns: seq<Turn>): Sys
    decreases |turns|
  {
    if turns == [] then s else Turns(TakeTurn(s, turns[0]), turns[1..])
  }

  /** As many unhindered reads as there are unread bytes empty the channel. */
  lemma {:induction false} ReadsDrain(s: Sys, turns: seq<Turn>)
    requires Inv(s) && AllRead(s, turns) && |turns| >= Unread(s.work)
    ensures Turns(s, turns).work == []
    decreases |turns|
  {
    if s.work == [] {
      if turns != [] {
        ReadsDrain(TakeTurn(s, turns[0]), turns[1..]);
      }
    } else {
      assert StreamInv(s, s.work[0].stream) && Waiting(s.work, s.work[0].stream);
      assert Halfway(s.work[0], Of(s.sent, s.work[0].stream), s.bodies[s.work[0].stream]);
      ReadsShorten(s, turns[0]);
      TurnInv(s, turns[0]);
      ReadsDrain(TakeTurn(s, turns[0]), turns[1..]);
    }
  }

  /**
   * Seen by one stream, the shared worker's successful turn is the delivery model's read: the same bytes join
   * the stream's low-priority queue, and the body keeps waiting exactly while some of it is unread.
   */
  lemma TurnIsDeliveryRead(s: Sys, n: nat, d: Stream)
    requires Inv(s) && s.work != [] && CanRead(s.work[0].rest, n)
    requires d.chunking == Some(s.work[0].rest) && d.queue.Some?
    ensures var (c, t, e) := (s.work[0], TakeTurn(s, Reads(n)), ReadChunk(d, n));
      && e.queue.Some? && e.queue.value.low == d.queue.value.low + [Body(PacketOf(c, n).data)]
      && (e.chunking.Some? <==> Waiting(t.work, c.stream))
      && (forall i | 0 <= i < |t.work| && t.work[i].stream == c.stream :: e.chunking == Some(t.work[i].rest))
  {
    var (c, t) := (s.work[0], TakeTurn(s, Reads(n)));
    assert StreamInv(s, c.stream) && Waiting(s.work, c.stream);
    assert Halfway(c, Of(s.sent, c.stream), s.bodies[c.stream]);
    var others := s.work[1..];
    assert forall i | 0 <= i < |others| :: others[i].stream != c.stream;
    if n < |c.rest| {
      assert t.work == others + [Advanced(c, n)];
      assert t.work[|others|].stream == c.stream;
    } else {
      assert t.work == others;
    }
  }

  // ---------- the worker ----------

  /** The worker as the code runs it: one receiver that is also its own resender. */
  class Worker {
    var work: seq<Chunkable>
    var sent: seq<Packet>
    var bodies: map<nat, Bytes>
    var failed: set<nat>

    function View(): Sys
      reads this
    {
      Sys(work, sent, bodies, failed)
    }

    constructor ()
      ensures View() == START
    {
      work, sent, bodies, failed := [], [], map[], {};
    }

    method Send(stream: nat, body: Bytes)
      modifies this
      ensures View() == SubmitBody(old(View()), stream, body)
    {
      if stream !in bodies && body != [] {
        work := work + [Chunkable(stream, body, |body|, 0, 0)];
        bodies := bodies[stream := body];
      }
    }

    /** One turn of the loop; `buffer` is what a successful read returned. */
    method ReceiveOne(occupied: bool, buffer: Option<Bytes>) returns (turn: Turn)
      requires work != []
      requires buffer.Some? ==> CanRead(work[0].rest, |buffer.value|) && buffer.value <= work[0].rest
      modifies this
      ensures View() == TakeTurn(old(View()), turn)
      ensures turn == if occupied then Occupied else if buffer.Some? then Reads(|buffer.value|) else Fails
    {
      var chunkable := work[0];
      work := work[1..];
      if occupied {
        work := work + [chunkable];
        return Occupied;
      }
      if buffer.None? {
        failed := failed + {chunkable.stream};
        return Fails;
      }
      var n := |buffer.value|;
      assert buffer.value == chunkable.rest[..n];
      var last := n + chunkable.bytesWritten == chunkable.bodyLen;
      sent := sent + [Packet(chunkable.stream, chunkable.packetId, buffer.value, last)];
      if !last {
        work := work + [chunkable.(rest := chunkable.rest[n..], packetId := chunkable.packetId + 1,
                                   bytesWritten := chunkable.bytesWritten + n)];
      }
      turn := Reads(n);
    }
  }
}
