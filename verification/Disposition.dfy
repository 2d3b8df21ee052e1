/**
 * The request disposition protocol: network loop, header processor, middleware workers, signal
 * receiver and response workers share a disposition map, a signal channel, an injection queue and the
 * request table. This file holds the state, the atomic steps and the shared object.
 */
module Disposition {
  import opened Basics

  /** A request: its connection and its stream on that connection. */
  datatype Key = Key(conn: nat, stream: nat)

  datatype State = Pending | Ready | Rejected

  /** A middleware's answer; a callback error rejects like an abort. */
  datatype Verdict = Continue | Abort | Broken

  /** What is fixed about each request: whether a route exists, its chain, and path admission. */
  datatype Config = Config(routed: Key -> bool, chain: Key -> seq<Verdict>, admitted: Key -> bool)

  predicate Clean(chain: seq<Verdict>, upTo: nat)
    requires upTo <= |chain|
  {
    forall i | 0 <= i < upTo :: chain[i] == Continue
  }

  /** The request passes: its route exists and every middleware lets it continue. */
  predicate Passes(c: Config, k: Key) {
    c.routed(k) && Clean(c.chain(k), |c.chain(k)|)
  }

  // ---------- atomic regions of the shared map ----------

  /** One locked removal: the state leaves the map unless it is still pending. */
  function RemoveUnlessPending(signal: map<Key, State>, k: Key): (map<Key, State>, Option<State>) {
    if k in signal && signal[k] != Pending then (signal - {k}, Some(signal[k])) else (signal, None)
  }

  /** A signal overwrites a live entry and is otherwise a request to discard. */
  function Deliver(signal: map<Key, State>, k: Key, state: State): Option<map<Key, State>> {
    if k in signal then Some(signal[k := state]) else None
  }

  function OfConn(keys: set<Key>, conn: nat): set<Key> {
    set k | k in keys && k.conn == conn
  }

  // ---------- the system ----------

  /** Where a request is between its HEADERS event and its one signal. */
  datatype Job = Queued | Running(done: nat) | Looked(present: bool) | Creating | Announcing

  /** A response worker between taking an injection and being free again. */
  datatype Task = Took(k: Key) | Absent(k: Key) | Retrying(k: Key)
    | Building(k: Key) | Removing(k: Key) | Handling(k: Key) | Discarding(k: Key)

  datatype Receiver = Listening | Dropping(k: Key)

  /** The network thread between two of its atomic actions. */
  datatype Net =
    | Idle
    | Submitting(k: Key)
    | Cancelling(k: Key)
    | Forgetting(k: Key)
    | ClosingSignals(conn: nat)
    | ClosingEntries(conn: nat, todo: set<Key>)

  /**
   * `begun`, `closed`, `accepted`, `cancelled`, `arrived`, `consumed`, `dropped`, `handled` and `gone`
   * are histories: HEADERS seen, terminal event seen, FIN queued as an injection, key removed by a
   * cancel, signal delivered, injection answered, injection dropped, handler run, connection closed.
   */
  datatype Sys = Sys(
    signal: map<Key, State>,
    table: set<Key>,
    inflight: set<Key>,
    jobs: map<Key, Job>,
    signals: seq<(Key, State)>,
    receiver: Receiver,
    injections: seq<Key>,
    tasks: multiset<Task>,
    net: Net,
    begun: set<Key>,
    closed: set<Key>,
    accepted: set<Key>,
    cancelled: set<Key>,
    arrived: set<Key>,
    consumed: multiset<Key>,
    dropped: multiset<Key>,
    handled: multiset<Key>,
    gone: set<nat>)

  const START: Sys :=
    Sys(map[], {}, {}, map[], [], Listening, [], multiset{}, Idle,
        {}, {}, {}, {}, {}, multiset{}, multiset{}, multiset{}, {})

  datatype Step =
    | Begin(k: Key)
    | Data(k: Key)
    | Finished(k: Key)
    | Reset(k: Key)
    | Close(conn: nat)
    | Visit(k: Key)
    | NetNext
    | JobNext(k: Key, stored: bool)
    | Receive
    | Take
    | TaskNext(task: Task)

  // ---------- network thread ----------

  function BeginStep(s: Sys, k: Key): Sys {
    if s.net != Idle || k in s.begun || k.conn in s.gone then s
    else s.(signal := s.signal[k := Pending], begun := s.begun + {k}, net := Submitting(k))
  }

  function DataStep(s: Sys, k: Key): Sys {
    if s.net != Idle || k !in s.begun || k in s.closed then s else s.(table := s.table + {k})
  }

  /** The first half of a cancel; the entry is discarded by a later step. */
  function CancelSignal(s: Sys, k: Key): Sys {
    s.(signal := s.signal - {k}, closed := s.closed + {k},
       cancelled := if k in s.signal then s.cancelled + {k} else s.cancelled, net := Cancelling(k))
  }

  function FinishedStep(s: Sys, k: Key): Sys {
    if s.net != Idle || k !in s.begun || k.conn in s.gone then s
    else if k in s.inflight then
      s.(inflight := s.inflight - {k}, closed := s.closed + {k}, accepted := s.accepted + {k},
         injections := s.injections + [k])
    else CancelSignal(s, k)
  }

  function ResetStep(s: Sys, k: Key): Sys {
    if s.net != Idle || k !in s.begun || k.conn in s.gone then s else CancelSignal(s, k)
  }

  function CloseStep(s: Sys, conn: nat): Sys {
    if s.net != Idle then s
    else s.(gone := s.gone + {conn}, closed := s.closed + OfConn(s.begun, conn), net := ClosingSignals(conn))
  }

  /** Retention walks the map key by key while other threads run. */
  function VisitStep(s: Sys, k: Key): Sys {
    match s.net
    case ClosingSignals(conn) =>
      if k.conn != conn then s
      else s.(signal := s.signal - {k}, cancelled := if k in s.signal then s.cancelled + {k} else s.cancelled)
    case ClosingEntries(conn, todo) =>
      if k.conn != conn then s else s.(table := s.table - {k}, net := ClosingEntries(conn, todo - {k}))
    case _ => s
  }

  /** The walk ends when every key present at its start was visited. */
  function NetStep(s: Sys, c: Config): Sys {
    match s.net
    case Idle => s
    case Submitting(k) =>
      s.(inflight := if c.admitted(k) then s.inflight + {k} else s.inflight, jobs := s.jobs[k := Queued], net := Idle)
    case Cancelling(k) => s.(table := s.table - {k}, net := Forgetting(k))
    case Forgetting(k) => s.(inflight := s.inflight - {k}, net := Idle)
    case ClosingSignals(conn) =>
      if OfConn(s.signal.Keys, conn) != {} then s
      else s.(net := ClosingEntries(conn, OfConn(s.table, conn)))
    case ClosingEntries(conn, todo) =>
      if todo != {} then s else s.(inflight := s.inflight - OfConn(s.inflight, conn), net := Idle)
  }

  // ---------- header processor, middleware workers, signal receiver ----------

  function SendSignal(s: Sys, k: Key, state: State): Sys {
    s.(signals := s.signals + [(k, state)], jobs := s.jobs - {k})
  }

  /** `stored` is false when creating the entry fails; the signal is sent all the same. */
  function JobStep(s: Sys, c: Config, k: Key, stored: bool): Sys {
    if k !in s.jobs then s
    else
      match s.jobs[k]
      case Queued => if c.routed(k) then s.(jobs := s.jobs[k := Running(0)]) else SendSignal(s, k, Rejected)
      case Running(done) =>
        if done >= |c.chain(k)| then s.(jobs := s.jobs[k := Looked(k in s.table)])
        else if c.chain(k)[done] == Continue then s.(jobs := s.jobs[k := Running(done + 1)])
        else SendSignal(s, k, Rejected)
      case Looked(present) =>
        s.(jobs := s.jobs[k := if present || k in s.table then Announcing else Creating])
      case Creating => s.(table := if stored then s.table + {k} else s.table, jobs := s.jobs[k := Announcing])
      case Announcing => SendSignal(s, k, Ready)
  }

  function ReceiveStep(s: Sys): Sys {
    match s.receiver
    case Dropping(k) => s.(table := s.table - {k}, receiver := Listening)
    case Listening =>
      if s.signals == [] then s
      else
        var (k, state) := s.signals[0];
        var delivered := Deliver(s.signal, k, state);
        var t := s.(signals := s.signals[1..], arrived := s.arrived + {k});
        if delivered.Some? then t.(signal := delivered.value) else t.(receiver := Dropping(k))
  }

  // ---------- response workers ----------

  function TakeStep(s: Sys): Sys {
    if s.injections == [] then s
    else s.(injections := s.injections[1..], tasks := s.tasks + multiset{Took(s.injections[0])})
  }

  function TaskStep(s: Sys, task: Task): Sys {
    if task !in s.tasks then s
    else
      var rest := s.tasks - multiset{task};
      match task
      case Took(k) =>
        var (signal, state) := RemoveUnlessPending(s.signal, k);
        var next := if state.None? then Absent(k) else if state.value == Ready then Building(k) else Discarding(k);
        s.(signal := signal, tasks := rest + multiset{next})
      case Absent(k) =>
        if k in s.signal then s.(tasks := rest + multiset{Retrying(k)})
        else s.(tasks := rest, dropped := s.dropped + multiset{k})
      case Retrying(k) => s.(tasks := rest, injections := s.injections + [k])
      case Building(k) =>
        if k in s.table then s.(tasks := rest + multiset{Removing(k)})
        else s.(tasks := rest, consumed := s.consumed + multiset{k})
      case Removing(k) => s.(tasks := rest + multiset{Handling(k)}, table := s.table - {k})
      case Handling(k) => s.(tasks := rest, handled := s.handled + multiset{k}, consumed := s.consumed + multiset{k})
      case Discarding(k) => s.(tasks := rest, table := s.table - {k}, consumed := s.consumed + multiset{k})
  }

  function Apply(c: Config, s: Sys, step: Step): Sys {
    match step
    case Begin(k) => BeginStep(s, k)
    case Data(k) => DataStep(s, k)
    case Finished(k) => FinishedStep(s, k)
    case Reset(k) => ResetStep(s, k)
    case Close(conn) => CloseStep(s, conn)
    case Visit(k) => VisitStep(s, k)
    case NetNext => NetStep(s, c)
    case JobNext(k, stored) => JobStep(s, c, k, stored)
    case Receive => ReceiveStep(s)
    case Take => TakeStep(s)
    case TaskNext(task) => TaskStep(s, task)
  }

  function Run(c: Config, s: Sys, steps: seq<Step>): Sys
    decreases |steps|
  {
    if steps == [] then s else Run(c, Apply(c, s, steps[0]), steps[1..])
  }
}
