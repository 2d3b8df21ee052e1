/**
 * The calls on the shared objects are the protocol's atomic steps run in a row: what each call does when no
 * other thread comes between, stated on the protocol's own state.
 */
module ProtocolCalls {
  import opened Basics
  import opened Disposition
  import P = DispositionProgress

  // ---------- short runs ----------

  lemma RunOne(c: Config, s: Sys, a: Step)
    ensures Run(c, s, [a]) == Apply(c, s, a)
  {
    assert [a][1..] == [];
    assert Run(c, Apply(c, s, a), []) == Apply(c, s, a);
  }

  lemma RunTwo(c: Config, s: Sys, a: Step, b: Step)
    ensures Run(c, s, [a, b]) == Apply(c, Apply(c, s, a), b)
  {
    assert [a, b][1..] == [b];
    RunOne(c, Apply(c, s, a), b);
  }

  // ---------- HEADERS and FIN ----------

  /** `BeginRequest`, `InsertStreamPath` and the submission: pending, marked exactly when admitted, and queued. */
  lemma HeadersAreTwoSteps(c: Config, s: Sys, k: Key)
    requires s.net == Idle && k !in s.begun && k.conn !in s.gone
    ensures Run(c, s, [Begin(k), NetNext]) ==
      s.(signal := s.signal[k := Pending], begun := s.begun + {k}, jobs := s.jobs[k := Queued],
         inflight := if c.admitted(k) then s.inflight + {k} else s.inflight)
  {
    RunTwo(c, s, Begin(k), NetNext);
  }

  /** `IsFinishedRequestAValidPath` answers yes: the mark is used up and one injection is queued. */
  lemma MarkedFinIsOneStep(c: Config, s: Sys, k: Key)
    requires s.net == Idle && k in s.begun && k.conn !in s.gone && k in s.inflight
    ensures Run(c, s, [Finished(k)]) ==
      s.(inflight := s.inflight - {k}, closed := s.closed + {k}, accepted := s.accepted + {k},
         injections := s.injections + [k])
  {
    RunOne(c, s, Finished(k));
  }

  /** `IsFinishedRequestAValidPath` answers no: the FIN is the cancel of the request. */
  lemma UnmarkedFinIsCancel(c: Config, s: Sys, k: Key)
    requires s.net == Idle && k in s.begun && k.conn !in s.gone && k !in s.inflight
    ensures Run(c, s, [Finished(k), NetNext, NetNext]) == Run(c, s, [Reset(k), NetNext, NetNext])
    ensures var t := Run(c, s, [Finished(k), NetNext, NetNext]);
      && t.signal == s.signal - {k} && t.table == s.table - {k} && t.inflight == s.inflight && t.net == Idle
      && t.accepted == s.accepted && t.injections == s.injections
  {
    assert [Finished(k), NetNext, NetNext] == [Finished(k)] + [NetNext, NetNext];
    assert [Reset(k), NetNext, NetNext] == [Reset(k)] + [NetNext, NetNext];
    P.RunConcat(c, s, [Finished(k)], [NetNext, NetNext]);
    P.RunConcat(c, s, [Reset(k)], [NetNext, NetNext]);
    RunOne(c, s, Finished(k));
    RunOne(c, s, Reset(k));
    RunTwo(c, Apply(c, s, Finished(k)), NetNext, NetNext);
    assert s.inflight - {k} == s.inflight;
  }

  /** A packet of an open request leaves an entry in the table. */
  lemma DataIsOneStep(c: Config, s: Sys, k: Key)
    requires s.net == Idle && k in s.begun && k !in s.closed
    ensures Run(c, s, [Data(k)]) == s.(table := s.table + {k})
  {
    RunOne(c, s, Data(k));
  }

  // ---------- one signal ----------

  lemma LiveSignalIsOneStep(c: Config, s: Sys, k: Key, state: State)
    requires s.receiver == Listening && s.signals != [] && s.signals[0] == (k, state) && k in s.signal
    ensures Run(c, s, [Receive]) ==
      s.(signal := s.signal[k := state], signals := s.signals[1..], arrived := s.arrived + {k})
  {
    RunOne(c, s, Receive);
  }

  lemma LateSignalIsTwoSteps(c: Config, s: Sys, k: Key, state: State)
    requires s.receiver == Listening && s.signals != [] && s.signals[0] == (k, state) && k !in s.signal
    ensures Run(c, s, [Receive, Receive]) ==
      s.(table := s.table - {k}, signals := s.signals[1..], arrived := s.arrived + {k})
  {
    RunTwo(c, s, Receive, Receive);
  }

  // ---------- one registration ----------

  /** The worker's tasks about `k` other than the one it starts from: none. */
  predicate OnlyTook(s: Sys, k: Key) {
    && Took(k) in s.tasks
    && Absent(k) !in s.tasks && Building(k) !in s.tasks && Removing(k) !in s.tasks
    && Handling(k) !in s.tasks && Discarding(k) !in s.tasks
  }

  lemma Replaced(tasks: multiset<Task>, a: Task)
    requires a !in tasks
    ensures tasks + multiset{a} - multiset{a} == tasks
  {
  }

  /** A worker's task becomes the next one. */
  function Became(s: Sys, a: Task, b: Task): Sys {
    s.(tasks := s.tasks - multiset{a} + multiset{b})
  }

  lemma BecameTwice(s: Sys, a: Task, b: Task, d: Task)
    requires b !in s.tasks - multiset{a}
    ensures Became(Became(s, a, b), b, d) == Became(s, a, d)
  {
    Replaced(s.tasks - multiset{a}, b);
  }

  lemma ReadyIsTaken(c: Config, s: Sys, k: Key)
    requires Took(k) in s.tasks && k in s.signal && s.signal[k] == Ready
    ensures Apply(c, s, TaskNext(Took(k))) == Became(s, Took(k), Building(k)).(signal := s.signal - {k})
  {
  }

  lemma EntryIsFound(c: Config, s: Sys, k: Key)
    requires Building(k) in s.tasks && k in s.table
    ensures Apply(c, s, TaskNext(Building(k))) == Became(s, Building(k), Removing(k))
  {
  }

  lemma ReadyRegisterBuilds(c: Config, s: Sys, k: Key)
    requires OnlyTook(s, k) && k in s.signal && s.signal[k] == Ready && k in s.table
    ensures Run(c, s, [TaskNext(Took(k)), TaskNext(Building(k))])
      == Became(s, Took(k), Removing(k)).(signal := s.signal - {k})
  {
    var t := Became(s, Took(k), Building(k)).(signal := s.signal - {k});
    ReadyIsTaken(c, s, k);
    EntryIsFound(c, t, k);
    BecameTwice(s, Took(k), Building(k), Removing(k));
    RunTwo(c, s, TaskNext(Took(k)), TaskNext(Building(k)));
  }

  lemma RemovedEntryIsHandled(c: Config, s: Sys, k: Key)
    requires Removing(k) in s.tasks && Handling(k) !in s.tasks
    ensures Run(c, s, [TaskNext(Removing(k)), TaskNext(Handling(k))]) ==
      s.(table := s.table - {k}, tasks := s.tasks - multiset{Removing(k)},
         handled := s.handled + multiset{k}, consumed := s.consumed + multiset{k})
  {
    RunTwo(c, s, TaskNext(Removing(k)), TaskNext(Handling(k)));
    Replaced(s.tasks - multiset{Removing(k)}, Handling(k));
  }

  /** A ready registration with its entry: the entry is taken out and the handler runs, once. */
  lemma ReadyRegisterHandles(c: Config, s: Sys, k: Key)
    requires OnlyTook(s, k) && k in s.signal && s.signal[k] == Ready && k in s.table
    ensures var steps := [TaskNext(Took(k)), TaskNext(Building(k)), TaskNext(Removing(k)), TaskNext(Handling(k))];
      Run(c, s, steps) ==
        s.(signal := s.signal - {k}, table := s.table - {k}, tasks := s.tasks - multiset{Took(k)},
           handled := s.handled + multiset{k}, consumed := s.consumed + multiset{k})
  {
    var (first, second) := ([TaskNext(Took(k)), TaskNext(Building(k))], [TaskNext(Removing(k)), TaskNext(Handling(k))]);
    var t := Became(s, Took(k), Removing(k)).(signal := s.signal - {k});
    ReadyRegisterBuilds(c, s, k);
    Replaced(s.tasks - multiset{Took(k)}, Removing(k));
    RemovedEntryIsHandled(c, t, k);
    P.RunConcat(c, s, first, second);
    assert first + second
      == [TaskNext(Took(k)), TaskNext(Building(k)), TaskNext(Removing(k)), TaskNext(Handling(k))];
  }

  lemma EntryIsMissing(c: Config, s: Sys, k: Key)
    requires Building(k) in s.tasks && k !in s.table
    ensures Apply(c, s, TaskNext(Building(k)))
      == s.(tasks := s.tasks - multiset{Building(k)}, consumed := s.consumed + multiset{k})
  {
  }

  /** A ready registration without an entry is consumed and no handler runs. */
  lemma ReadyRegisterWithoutEntry(c: Config, s: Sys, k: Key)
    requires OnlyTook(s, k) && k in s.signal && s.signal[k] == Ready && k !in s.table
    ensures Run(c, s, [TaskNext(Took(k)), TaskNext(Building(k))]) ==
      s.(signal := s.signal - {k}, tasks := s.tasks - multiset{Took(k)}, consumed := s.consumed + multiset{k})
  {
    Replaced(s.tasks - multiset{Took(k)}, Building(k));
    ReadyIsTaken(c, s, k);
    EntryIsMissing(c, Became(s, Took(k), Building(k)).(signal := s.signal - {k}), k);
    RunTwo(c, s, TaskNext(Took(k)), TaskNext(Building(k)));
  }

  lemma RejectedIsTaken(c: Config, s: Sys, k: Key)
    requires Took(k) in s.tasks && k in s.signal && s.signal[k] == Rejected
    ensures Apply(c, s, TaskNext(Took(k))) == Became(s, Took(k), Discarding(k)).(signal := s.signal - {k})
  {
  }

  lemma EntryIsDiscarded(c: Config, s: Sys, k: Key)
    requires Discarding(k) in s.tasks
    ensures Apply(c, s, TaskNext(Discarding(k))) ==
      s.(table := s.table - {k}, tasks := s.tasks - multiset{Discarding(k)}, consumed := s.consumed + multiset{k})
  {
  }

  lemma RejectedRegisterDiscards(c: Config, s: Sys, k: Key)
    requires OnlyTook(s, k) && k in s.signal && s.signal[k] == Rejected
    ensures Run(c, s, [TaskNext(Took(k)), TaskNext(Discarding(k))]) ==
      s.(signal := s.signal - {k}, table := s.table - {k}, tasks := s.tasks - multiset{Took(k)},
         consumed := s.consumed + multiset{k})
  {
    Replaced(s.tasks - multiset{Took(k)}, Discarding(k));
    RejectedIsTaken(c, s, k);
    EntryIsDiscarded(c, Became(s, Took(k), Discarding(k)).(signal := s.signal - {k}), k);
    RunTwo(c, s, TaskNext(Took(k)), TaskNext(Discarding(k)));
  }

  /** A registration nobody knows is dropped and touches nothing else. */
  lemma UnknownRegisterDrops(c: Config, s: Sys, k: Key)
    requires OnlyTook(s, k) && k !in s.signal
    ensures Run(c, s, [TaskNext(Took(k)), TaskNext(Absent(k))]) ==
      s.(tasks := s.tasks - multiset{Took(k)}, dropped := s.dropped + multiset{k})
  {
    Replaced(s.tasks - multiset{Took(k)}, Absent(k));
    RunTwo(c, s, TaskNext(Took(k)), TaskNext(Absent(k)));
  }

  // ---------- one middleware job ----------

  predicate AllContinue(chain: seq<Verdict>) {
    forall i | 0 <= i < |chain| :: chain[i] == Continue
  }

  lemma Then(c: Config, s: Sys, step: Step, rest: seq<Step>) returns (all: seq<Step>)
    ensures all == [step] + rest && Run(c, s, all) == Run(c, Apply(c, s, step), rest)
  {
    all := [step] + rest;
    assert all[1..] == rest;
  }

  /** From the end of the chain: an entry, unless storing it fails, and readiness. */
  lemma JobEnds(c: Config, s: Sys, k: Key, stored: bool) returns (steps: seq<Step>)
    requires k in s.jobs && s.jobs[k] == Running(|c.chain(k)|)
    ensures Run(c, s, steps) ==
      s.(jobs := s.jobs - {k}, signals := s.signals + [(k, Ready)],
         table := if stored then s.table + {k} else s.table)
  {
    var next := JobNext(k, stored);
    var looked := s.(jobs := s.jobs[k := Looked(k in s.table)]);
    var announcing := s.(jobs := s.jobs[k := Announcing], table := if stored then s.table + {k} else s.table);
    assert Apply(c, s, next) == looked;
    assert (s.jobs[k := Announcing]) - {k} == s.jobs - {k};
    var last := Then(c, announcing, next, []);
    if k in s.table {
      assert s.table + {k} == s.table;
      assert Apply(c, looked, next) == announcing;
      var rest := Then(c, looked, next, last);
      steps := Then(c, s, next, rest);
    } else {
      var creating := s.(jobs := s.jobs[k := Creating]);
      assert Apply(c, looked, next) == creating && Apply(c, creating, next) == announcing;
      var rest := Then(c, creating, next, last);
      rest := Then(c, looked, next, rest);
      steps := Then(c, s, next, rest);
    }
  }

  lemma {:induction false} JobRuns(c: Config, s: Sys, k: Key, stored: bool, done: nat) returns (steps: seq<Step>)
    requires k in s.jobs && s.jobs[k] == Running(done) && done <= |c.chain(k)|
    requires forall i | 0 <= i < done :: c.chain(k)[i] == Continue
    ensures var passes := AllContinue(c.chain(k));
      Run(c, s, steps) ==
        s.(jobs := s.jobs - {k}, signals := s.signals + [(k, if passes then Ready else Rejected)],
           table := if passes && stored then s.table + {k} else s.table)
    decreases |c.chain(k)| - done
  {
    var next := JobNext(k, stored);
    if done == |c.chain(k)| {
      steps := JobEnds(c, s, k, stored);
    } else if c.chain(k)[done] == Continue {
      var t := s.(jobs := s.jobs[k := Running(done + 1)]);
      assert Apply(c, s, next) == t && t.jobs - {k} == s.jobs - {k};
      var rest := JobRuns(c, t, k, stored, done + 1);
      steps := Then(c, s, next, rest);
    } else {
      RunOne(c, s, next);
      steps := [next];
    }
  }

  /**
   * One job, from its submission to its one signal: ready with an entry, unless storing it fails, when the
   * route exists and every middleware continues; rejected without touching the table otherwise.
   */
  lemma JobServes(c: Config, s: Sys, k: Key, stored: bool) returns (steps: seq<Step>)
    requires k in s.jobs && s.jobs[k] == Queued
    ensures var passes := c.routed(k) && AllContinue(c.chain(k));
      Run(c, s, steps) ==
        s.(jobs := s.jobs - {k}, signals := s.signals + [(k, if passes then Ready else Rejected)],
           table := if passes && stored then s.table + {k} else s.table)
  {
    var next := JobNext(k, stored);
    if c.routed(k) {
      var t := s.(jobs := s.jobs[k := Running(0)]);
      assert Apply(c, s, next) == t && t.jobs - {k} == s.jobs - {k};
      var rest := JobRuns(c, t, k, stored, 0);
      steps := Then(c, s, next, rest);
    } else {
      RunOne(c, s, next);
      steps := [next];
    }
  }

  // ---------- closing a connection ----------

  /** The system without the dispositions `gone`, which the close cancelled. */
  function WithoutSignals(s: Sys, gone: set<Key>): Sys {
    s.(signal := s.signal - gone, cancelled := s.cancelled + gone)
  }

  lemma SignalVisited(s: Sys, k: Key)
    requires s.net == ClosingSignals(k.conn) && k in s.signal
    ensures VisitStep(s, k) == WithoutSignals(s, {k})
    ensures OfConn(WithoutSignals(s, {k}).signal.Keys, k.conn) == OfConn(s.signal.Keys, k.conn) - {k}
  {
  }

  lemma WithoutMore(s: Sys, gone: set<Key>, k: Key)
    requires k in gone
    ensures WithoutSignals(WithoutSignals(s, {k}), gone - {k}) == WithoutSignals(s, gone)
  {
    assert s.signal - {k} - (gone - {k}) == s.signal - gone;
    assert s.cancelled + {k} + (gone - {k}) == s.cancelled + gone;
  }

  /** What the close leaves of the dispositions, key by key. */
  lemma {:induction false} SignalsCanGo(c: Config, s: Sys, conn: nat) returns (steps: seq<Step>)
    requires s.net == ClosingSignals(conn)
    ensures Run(c, s, steps) == WithoutSignals(s, OfConn(s.signal.Keys, conn))
    decreases |OfConn(s.signal.Keys, conn)|
  {
    var gone := OfConn(s.signal.Keys, conn);
    if gone == {} {
      assert s.signal - gone == s.signal && s.cancelled + gone == s.cancelled;
      steps := [];
    } else {
      var k :| k in gone;
      SignalVisited(s, k);
      var rest := SignalsCanGo(c, WithoutSignals(s, {k}), conn);
      WithoutMore(s, gone, k);
      steps := Then(c, s, Visit(k), rest);
    }
  }

  lemma {:induction false} EntriesCanGo(c: Config, s: Sys, conn: nat, todo: set<Key>) returns (steps: seq<Step>)
    requires s.net == ClosingEntries(conn, todo) && forall k | k in todo :: k.conn == conn
    ensures Run(c, s, steps) == s.(table := s.table - todo, net := ClosingEntries(conn, {}))
    decreases |todo|
  {
    if todo == {} {
      assert s.table - todo == s.table;
      steps := [];
    } else {
      var k :| k in todo;
      var t := VisitStep(s, k);
      var rest := EntriesCanGo(c, t, conn, todo - {k});
      assert t.table - (todo - {k}) == s.table - todo;
      steps := Then(c, s, Visit(k), rest);
    }
  }

  /** The connection once every one of its dispositions, entries and marks is gone. */
  function Closed(s: Sys, conn: nat): Sys {
    WithoutSignals(s, OfConn(s.signal.Keys, conn)).(
      table := s.table - OfConn(s.table, conn), inflight := s.inflight - OfConn(s.inflight, conn),
      closed := s.closed + OfConn(s.begun, conn), gone := s.gone + {conn})
  }

  /** The first half of the close: no disposition of the connection is left, and its entries are counted. */
  lemma SignalsClose(c: Config, s: Sys, conn: nat) returns (steps: seq<Step>)
    requires s.net == ClosingSignals(conn)
    ensures Run(c, s, steps)
      == WithoutSignals(s, OfConn(s.signal.Keys, conn)).(net := ClosingEntries(conn, OfConn(s.table, conn)))
  {
    var signals := SignalsCanGo(c, s, conn);
    var t := WithoutSignals(s, OfConn(s.signal.Keys, conn));
    assert OfConn(t.signal.Keys, conn) == {};
    RunOne(c, t, NetNext);
    P.RunConcat(c, s, signals, [NetNext]);
    steps := signals + [NetNext];
  }

  /** The second half: its entries go, then its marks. */
  lemma EntriesClose(c: Config, s: Sys, conn: nat, todo: set<Key>) returns (steps: seq<Step>)
    requires s.net == ClosingEntries(conn, todo) && forall k | k in todo :: k.conn == conn
    ensures Run(c, s, steps)
      == s.(table := s.table - todo, inflight := s.inflight - OfConn(s.inflight, conn), net := Idle)
  {
    var entries := EntriesCanGo(c, s, conn, todo);
    RunOne(c, s.(table := s.table - todo, net := ClosingEntries(conn, {})), NetNext);
    P.RunConcat(c, s, entries, [NetNext]);
    steps := entries + [NetNext];
  }

  /**
   * `CancelConnection` and `RemoveConnection`: a close that no other thread disturbs runs to its end, and removes
   * exactly the connection's dispositions, entries and marks.
   */
  lemma CloseIsConnectionCancel(c: Config, s: Sys, conn: nat) returns (steps: seq<Step>)
    requires s.net == Idle
    ensures Run(c, s, steps) == Closed(s, conn) && steps != [] && steps[0] == Close(conn)
  {
    var a := CloseStep(s, conn);
    var b := WithoutSignals(a, OfConn(s.signal.Keys, conn)).(net := ClosingEntries(conn, OfConn(s.table, conn)));
    var first := SignalsClose(c, a, conn);
    var second := EntriesClose(c, b, conn, OfConn(s.table, conn));
    P.RunConcat(c, a, first, second);
    steps := Then(c, s, Close(conn), first + second);
  }
}
