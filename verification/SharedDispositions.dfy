/**
 * The shared objects behind the disposition protocol, as the code updates them: the disposition map with
 * its request table, and the one-shot in-flight set. Each method is one call with no other thread in
 * between; `Disposition` splits the same calls into the atomic steps other threads can interleave with.
 */
module SharedDispositions {
  import opened Basics
  import opened D = Disposition

  class ResponseInjectionBuffer {
    var signal: map<Key, State>
    var table: set<Key>

    constructor ()
      ensures signal == map[] && table == {}
    {
      signal, table := map[], {};
    }

    /** Recording a request never overwrites a disposition that is already there. */
    method BeginRequest(k: Key)
      modifies this`signal
      ensures signal == if k in old(signal) then old(signal) else old(signal)[k := Pending]
    {
      if k !in signal {
        signal := signal[k := Pending];
      }
    }

    /** `retry` hands the injection back; `handler` asks for the response to be prepared. */
    method Register(k: Key) returns (retry: bool, handler: bool)
      modifies this
      ensures signal == RemoveUnlessPending(old(signal), k).0
      ensures handler <==> k in old(signal) && old(signal)[k] == Ready
      ensures retry <==> k in old(signal) && old(signal)[k] == Pending
      ensures table == if k in old(signal) && old(signal)[k] == Rejected then old(table) - {k} else old(table)
    {
      var (rest, state) := RemoveUnlessPending(signal, k);
      signal := rest;
      match state
      case Some(Ready) => retry, handler := false, true;
      case Some(Rejected) =>
        table := table - {k};
        retry, handler := false, false;
      case _ => retry, handler := k in signal, false;
    }

    method CancelRequest(k: Key)
      modifies this
      ensures signal == old(signal) - {k} && table == old(table) - {k}
    {
      signal := signal - {k};
      table := table - {k};
    }

    /** Retention walks every key of the map; exactly the connection's own entries go. */
    method RetainSignals(conn: nat)
      modifies this`signal
      ensures signal == old(signal) - OfConn(old(signal).Keys, conn)
    {
      var todo := signal.Keys;
      while todo != {}
        invariant forall k :: k in signal <==> k in old(signal) && (k.conn != conn || k in todo)
        invariant forall k | k in signal :: signal[k] == old(signal)[k]
        decreases |todo|
      {
        var k :| k in todo;
        todo := todo - {k};
        if k.conn == conn {
          signal := signal - {k};
        }
      }
    }

    method RetainEntries(conn: nat)
      modifies this`table
      ensures table == old(table) - OfConn(old(table), conn)
    {
      var todo := table;
      while todo != {}
        invariant forall k :: k in table <==> k in old(table) && (k.conn != conn || k in todo)
        decreases |todo|
      {
        var k :| k in todo;
        todo := todo - {k};
        if k.conn == conn {
          table := table - {k};
        }
      }
    }

    method CancelConnection(conn: nat)
      modifies this
      ensures signal == old(signal) - OfConn(old(signal).Keys, conn)
      ensures table == old(table) - OfConn(old(table), conn)
    {
      RetainSignals(conn);
      RetainEntries(conn);
    }

    /** One signal: a live request takes the new state, a late signal discards the entry. */
    method Receive(k: Key, state: State)
      modifies this
      ensures signal == if k in old(signal) then old(signal)[k := state] else old(signal)
      ensures table == if k in old(signal) then old(table) else old(table) - {k}
    {
      if k in signal {
        signal := signal[k := state];
      } else {
        table := table - {k};
      }
    }
  }

  class InFlightStreams {
    var streams: set<Key>

    constructor ()
      ensures streams == {}
    {
      streams := {};
    }

    method InsertStreamPath(k: Key, accepted: bool) returns (inserted: bool)
      modifies this
      ensures inserted == accepted && streams == if accepted then old(streams) + {k} else old(streams)
    {
      if !accepted {
        return false;
      }
      streams := streams + {k};
      inserted := true;
    }

    /** Answers yes at most once per insertion. */
    method IsFinishedRequestAValidPath(k: Key) returns (valid: bool)
      modifies this
      ensures (valid <==> k in old(streams)) && streams == old(streams) - {k}
    {
      valid := k in streams;
      streams := streams - {k};
    }

    method RemoveConnection(conn: nat)
      modifies this
      ensures streams == old(streams) - OfConn(old(streams), conn)
    {
      streams := set k | k in streams && k.conn != conn;
    }
  }

  // ---------- the calls are the protocol's steps, run without interruption ----------

  /** `CancelRequest` is the cancelling step followed by the discarding one. */
  lemma CancelIsTwoSteps(c: Config, s: Sys, k: Key)
    requires s.net == Idle && k in s.begun && k.conn !in s.gone
    ensures var t := Run(c, s, [Reset(k), NetNext, NetNext]);
      t.signal == s.signal - {k} && t.table == s.table - {k} && t.inflight == s.inflight - {k} && t.net == Idle
  {
    var a := Apply(c, s, Reset(k));
    var b := Apply(c, a, NetNext);
    assert [Reset(k), NetNext, NetNext][1..] == [NetNext, NetNext];
    assert [NetNext, NetNext][1..] == [NetNext];
    assert Run(c, b, [NetNext]) == Apply(c, b, NetNext);
  }

  /** `Register` on a pending request is the removing step, the look and the requeueing. */
  lemma PendingRegisterRequeues(c: Config, s: Sys, k: Key)
    requires Took(k) in s.tasks && k in s.signal && s.signal[k] == Pending
    requires Absent(k) !in s.tasks && Retrying(k) !in s.tasks
    ensures var t := Run(c, s, [TaskNext(Took(k)), TaskNext(Absent(k)), TaskNext(Retrying(k))]);
      t == s.(tasks := s.tasks - multiset{Took(k)}, injections := s.injections + [k])
  {
    var steps := [TaskNext(Took(k)), TaskNext(Absent(k)), TaskNext(Retrying(k))];
    var rest := s.tasks - multiset{Took(k)};
    var a := Apply(c, s, steps[0]);
    assert a == s.(tasks := rest + multiset{Absent(k)});
    var b := Apply(c, a, steps[1]);
    assert rest + multiset{Absent(k)} - multiset{Absent(k)} == rest;
    assert b == s.(tasks := rest + multiset{Retrying(k)});
    assert rest + multiset{Retrying(k)} - multiset{Retrying(k)} == rest;
    assert steps[1..][1..] == [steps[2]];
    assert Run(c, b, [steps[2]]) == Apply(c, b, steps[2]);
  }
}
