/**
 * What serving one item does to its stream, in the item's own fields: what an accepted header passes and
 * starts, what an answer other than acceptance leaves behind, and what a failed part leaves behind.
 */
module ServedItems {
  import opened Basics
  import opened Delivery

  // ---------- accepted headers ----------

  /**
   * Accepted response headers pass the end of stream exactly when they are marked as ending or carry an empty
   * body, and hand any other body, whole, to the chunker.
   */
  lemma AcceptedResponse(s: Stream, item: Item)
    requires item.Header? && (item.mode == SendHeader || item.mode == SendAdditionalHeader)
    ensures var (t, ends) := (ServeHeader(s, item, Sent), item.isEnd || item.attached == Some([]));
      var (bodied, one) := (item.attached.Some? && item.attached.value != [], if ends then 1 else 0);
      && t.wire == s.wire.(offered := s.wire.offered + one, fins := s.wire.fins + one, turns := s.wire.turns + 1)
      && t.chunking == (if bodied then item.attached else s.chunking)
      && t.tracker == (if bodied then Some((0, |item.attached.value|)) else s.tracker)
      && (t.headersSent <==> s.headersSent || item.mode == SendHeader || item.attached.Some?)
      && t.pending == s.pending && t.queue == s.queue && t.partial == s.partial
  {
  }

  /** An accepted opening lets stream data flow and ends nothing. */
  lemma AcceptedOpening(s: Stream, item: Item)
    requires item.Header? && item.mode == OpenStream
    ensures ServeHeader(s, item, Sent)
      == s.(headersSent := true, wire := s.wire.(openings := s.wire.openings + 1, turns := s.wire.turns + 1))
  {
  }

  /** An accepted interim header leaves the stream as it was, its final headers still ahead. */
  lemma AcceptedInterim(s: Stream)
    ensures ServeHeader(s, Header(SendHeader100, false, None), Sent)
      == s.(wire := s.wire.(interims := s.wire.interims + 1))
  {
  }

  /** The empty body: its headers end the response, and no chunk follows. */
  lemma EmptyBodyExample(s: Stream)
    ensures var t := ServeHeader(s, Header(SendHeader, false, Some([])), Sent);
      t.wire.fins == s.wire.fins + 1 && t.chunking == s.chunking && t.headersSent
  {
  }

  // ---------- headers that were not accepted ----------

  /**
   * A header that was not accepted goes back in front of the stream and takes nothing; only an opening that was
   * refused for good resets its stream instead.
   */
  lemma UnacceptedHeader(s: Stream, item: Item, ha: HeadAnswer)
    requires item.Header? && !ha.Sent?
    ensures var (t, resets) := (ServeHeader(s, item, ha), item.mode == OpenStream && ha == Refused);
      && t.wire.fins == s.wire.fins && t.wire.accepted == s.wire.accepted && t.wire.openings == s.wire.openings
      && t.chunking == s.chunking && t.tracker == s.tracker
      && (if resets then t.pending == [] && t.queue.None? && t.partial.None? && !t.headersSent && t.wire.dead
          else t.pending == [item] + s.pending && t.queue == s.queue && t.partial == s.partial
               && t.headersSent == s.headersSent && t.wire.dead == s.wire.dead)
  {
  }

  // ---------- failed parts ----------

  /** A chunk or message whose send fails for good is put in front without its bytes; nothing of it is taken. */
  lemma FailedPartIsEmptied(s: Stream, data: Bytes, fa: Answer)
    requires s.headersSent
    ensures var t := ServeBody(s, data, Fatal, fa);
      t.pending == [Body([])] + s.pending && t.queue == s.queue && t.partial == s.partial && t.tracker == s.tracker
      && t.wire.accepted == s.wire.accepted && t.wire.dead
    ensures var t := ServeStreamData(s, data, Fatal);
      t.pending == [StreamData([])] + s.pending && t.queue == s.queue && t.partial == s.partial
      && t.tracker == s.tracker && t.wire.accepted == s.wire.accepted && t.wire.dead
  {
    assert data[..0] == [] && s.wire.accepted + [] == s.wire.accepted;
  }

  /** A parked part is dropped when its retry fails; when only its end of stream fails, it stays and keeps its count. */
  lemma FailedRetry(s: Stream, fa: Answer)
    requires s.partial.Some? && s.partial.value.written <= |s.partial.value.body|
    ensures var t := Resume(s, Fatal, fa); t.partial.None? && t.tracker == s.tracker && t.wire.dead
    ensures var (p, rest) := (s.partial.value, |s.partial.value.body| - s.partial.value.written);
      s.tracker.Some? && s.tracker.value.0 + rest == s.tracker.value.1 ==>
        var t := Resume(s, Took(rest), Fatal);
        && t.partial == Some(p.(written := |p.body|)) && t.tracker == s.tracker && t.wire.dead
        && t.wire.offered == s.wire.offered + 1 && t.wire.fins == s.wire.fins
  {
  }

  /** The chunker reads at most 8192 bytes at a time. */
  lemma ChunkSize(s: Stream, n: nat)
    requires ReadChunk(s, n) != s
    ensures 0 < n <= 8192 && s.chunking.Some? && n <= |s.chunking.value|
  {
  }
}
