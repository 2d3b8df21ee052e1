/** Safety, absence of leaks, isolation and progress of the disposition protocol, over all interleavings. */
module DispositionProofs {
  import opened Basics
  import opened Disposition

  // ---------- one request's share of the system ----------

  /** What the network thread is doing to one particular request. */
  datatype Attention = Elsewhere | Submits | Cancels | Forgets | ClosesSignals | ClosesEntries(todo: bool)

  /** What happened to a request so far. */
  datatype Past = Past(begun: bool, closed: bool, accepted: bool, cancelled: bool, arrived: bool, gone: bool)

  /** Its signals in the channel. */
  datatype Mail = Mail(ready: nat, rejected: nat, pending: nat)

  /** Its injections, in the queue and in the response workers' hands. */
  datatype Held = Held(
    queued: nat, took: nat, absent: nat, retrying: nat,
    building: nat, removing: nat, handling: nat, discarding: nat)

  /** What became of its injections. */
  datatype Answers = Answers(consumed: nat, dropped: nat, handled: nat)

  /** Everything the system holds about one request. */
  datatype Local = Local(
    past: Past, signal: Option<State>, table: bool, inflight: bool, job: Option<Job>, dropping: bool,
    net: Attention, mail: Mail, held: Held, answers: Answers)
  {
    /** Signals still to come: in the header stage or in the channel. */
    function Due(): nat {
      (if job.Some? then 1 else 0) + mail.ready + mail.rejected + (if net == Submits then 1 else 0)
    }

    /** Injections not answered yet. */
    function Waiting(): nat {
      held.queued + held.took + held.absent + held.retrying
    }

    /** Workers answering an injection whose key they removed. */
    function Answering(): nat {
      held.building + held.removing + held.handling + held.discarding
    }

    /** Somebody is still bound to remove the table entry. */
    predicate Removable() {
      || signal.Some? || Due() > 0 || dropping
      || held.building + held.removing + held.discarding > 0
      || net == Cancels || net == ClosesSignals || net == ClosesEntries(true)
    }
  }

  function AttentionOf(net: Net, k: Key): Attention {
    match net
    case Idle => Elsewhere
    case Submitting(k0) => if k0 == k then Submits else Elsewhere
    case Cancelling(k0) => if k0 == k then Cancels else Elsewhere
    case Forgetting(k0) => if k0 == k then Forgets else Elsewhere
    case ClosingSignals(conn) => if conn == k.conn then ClosesSignals else Elsewhere
    case ClosingEntries(conn, todo) => if conn == k.conn then ClosesEntries(k in todo) else Elsewhere
  }

  function PastOf(s: Sys, k: Key): Past {
    Past(k in s.begun, k in s.closed, k in s.accepted, k in s.cancelled, k in s.arrived, k.conn in s.gone)
  }

  function MailOf(signals: seq<(Key, State)>, k: Key): Mail {
    var all := multiset(signals);
    Mail(all[(k, Ready)], all[(k, Rejected)], all[(k, Pending)])
  }

  function HeldOf(injections: seq<Key>, tasks: multiset<Task>, k: Key): Held {
    Held(multiset(injections)[k], tasks[Took(k)], tasks[Absent(k)], tasks[Retrying(k)],
         tasks[Building(k)], tasks[Removing(k)], tasks[Handling(k)], tasks[Discarding(k)])
  }

  function StateOf(signal: map<Key, State>, k: Key): Option<State> {
    if k in signal then Some(signal[k]) else None
  }

  function Of(s: Sys, k: Key): Local {
    Local(
      PastOf(s, k), StateOf(s.signal, k), k in s.table, k in s.inflight,
      if k in s.jobs then Some(s.jobs[k]) else None, s.receiver == Dropping(k), AttentionOf(s.net, k),
      MailOf(s.signals, k), HeldOf(s.injections, s.tasks, k), Answers(s.consumed[k], s.dropped[k], s.handled[k]))
  }

  predicate JobInv(c: Config, k: Key, job: Job) {
    match job
    case Queued => true
    case Running(done) => c.routed(k) && done <= |c.chain(k)| && Clean(c.chain(k), done)
    case _ => Passes(c, k)
  }

  /** Nothing is known of a request before its HEADERS. */
  predicate Fresh(l: Local) {
    && l.signal.None? && !l.table && !l.inflight
    && !l.past.closed && !l.past.accepted && !l.past.cancelled && !l.past.arrived
    && l.Due() == 0 && !l.dropping && l.net != Cancels && l.net != Forgets
  }

  /** The disposition map: who may be in it, and with which state; exactly one signal per request. */
  predicate SignalInv(c: Config, k: Key, l: Local) {
    && (l.past.begun ==> l.Due() + (if l.past.arrived then 1 else 0) == 1)
    && (l.signal.Some? ==>
          && l.past.begun && !l.past.cancelled
          && (l.signal == Some(Pending) <==> !l.past.arrived)
          && (l.signal == Some(Ready) ==> Passes(c, k))
          && (l.signal == Some(Rejected) ==> !Passes(c, k))
          && (l.past.closed ==> l.past.accepted || l.net == ClosesSignals))
    && (l.past.begun && !l.past.closed ==> l.signal.Some? && !l.past.gone)
    && (l.net == Submits ==> l.past.begun && !l.past.closed)
    && (l.net == ClosesSignals || l.net.ClosesEntries? ==> l.past.gone)
    && (l.past.gone && l.net != ClosesSignals ==> l.signal.None?)
    && (l.job.Some? ==> JobInv(c, k, l.job.value))
    && l.mail.pending == 0
    && (l.mail.ready > 0 ==> Passes(c, k))
    && (l.mail.rejected > 0 ==> !Passes(c, k))
  }

  /** Injections: one per accepted FIN, always in exactly one place, answered only for their key. */
  predicate InjectionInv(c: Config, k: Key, l: Local) {
    && l.Waiting() + l.Answering() + l.answers.consumed + l.answers.dropped == (if l.past.accepted then 1 else 0)
    && (l.past.accepted ==> l.past.closed)
    && (l.signal.Some? ==> l.Answering() + l.answers.consumed + l.answers.dropped == 0)
    && (l.past.cancelled ==> l.Answering() + l.answers.consumed == 0)
    && (l.answers.dropped > 0 ==> l.past.cancelled)
    && (l.past.begun && l.signal.None? ==> l.past.cancelled || l.Answering() + l.answers.consumed == 1)
    && (l.dropping ==> l.past.cancelled)
    && (l.Answering() + l.answers.consumed > 0 ==> l.past.arrived)
    && (l.held.building + l.held.removing + l.held.handling + l.answers.handled > 0 ==> Passes(c, k))
    && (l.held.discarding > 0 ==> !Passes(c, k))
    && l.answers.handled <= l.answers.consumed
  }

  /** The request table and the in-flight set. */
  predicate TableInv(l: Local) {
    && (l.table ==> l.Removable())
    && (l.inflight && l.past.closed ==>
          l.net == Cancels || l.net == Forgets || l.net == ClosesSignals || l.net.ClosesEntries?)
    && (l.past.accepted ==> !l.inflight)
  }

  /** The in-flight mark of an open request is its path's admission; only an admitted request is ever accepted. */
  predicate AdmissionInv(c: Config, k: Key, l: Local) {
    && (l.inflight || l.past.accepted ==> c.admitted(k))
    && (l.past.begun && !l.past.closed ==> if l.net == Submits then !l.inflight else (l.inflight <==> c.admitted(k)))
    && (l.net == Cancels || l.net == Forgets ==> l.past.closed)
  }

  predicate LocalInv(c: Config, k: Key, l: Local) {
    && (!l.past.begun ==> Fresh(l))
    && SignalInv(c, k, l)
    && InjectionInv(c, k, l)
    && TableInv(l)
    && AdmissionInv(c, k, l)
  }

  ghost predicate Inv(c: Config, s: Sys) {
    forall k :: LocalInv(c, k, Of(s, k))
  }

  // ---------- what one step does to one request ----------

  /** Every step is, for each request, one of these moves. */
  datatype Move =
    | Untouched
    | Begins | Stores | Cancelled | Accepted | ConnectionCloses
    | SignalRetained | EntryRetained | Submitted(admitted: bool) | EntryCancelled | PathForgotten
    | EntriesNext | CloseEnds
    | Advances(job: Job, table: bool) | Sends(state: State) | Arrives(state: State) | Discarded
    | Takes | Removes | Checks | Requeues | Builds | Unlists | Handles | Empties

  /** When a move can happen. */
  predicate Enabled(c: Config, k: Key, l: Local, move: Move) {
    match move
    case Untouched => true
    case Begins => !l.past.begun && !l.past.gone && l.net == Elsewhere
    case Stores => l.past.begun && !l.past.closed
    case Cancelled => l.past.begun && l.net == Elsewhere
    case Accepted => l.past.begun && l.inflight && l.net == Elsewhere
    case ConnectionCloses => l.net == Elsewhere
    case SignalRetained => l.net == ClosesSignals
    case EntryRetained => l.net.ClosesEntries?
    case Submitted(admitted) => l.net == Submits && admitted == c.admitted(k)
    case EntryCancelled => l.net == Cancels
    case PathForgotten => l.net == Forgets
    case EntriesNext => l.net == ClosesSignals && l.signal.None?
    case CloseEnds => l.net == ClosesEntries(false)
    case Advances(job, table) => l.job.Some? && JobInv(c, k, job) && (l.table ==> table)
    case Sends(state) => l.job.Some? && ((state == Rejected && !Passes(c, k)) || (state == Ready && Passes(c, k)))
    case Arrives(state) => (state == Ready && l.mail.ready > 0) || (state == Rejected && l.mail.rejected > 0)
    case Discarded => l.dropping
    case Takes => l.held.queued > 0
    case Removes => l.held.took > 0
    case Checks => l.held.absent > 0
    case Requeues => l.held.retrying > 0
    case Builds => l.held.building > 0
    case Unlists => l.held.removing > 0
    case Handles => l.held.handling > 0
    case Empties => l.held.discarding > 0
  }

  /** A removal decides where the injection goes next. */
  function AfterRemoval(h: Held, signal: Option<State>): Held
    requires h.took > 0
  {
    var rest := h.(took := h.took - 1);
    if signal.None? || signal == Some(Pending) then rest.(absent := h.absent + 1)
    else if signal == Some(Ready) then rest.(building := h.building + 1)
    else rest.(discarding := h.discarding + 1)
  }

  function Cancel(p: Past, signal: Option<State>): Past {
    p.(cancelled := p.cancelled || signal.Some?)
  }

  /** What a move does to its request. */
  function Moved(c: Config, k: Key, l: Local, move: Move): Local
    requires Enabled(c, k, l, move)
  {
    var (h, a, m) := (l.held, l.answers, l.mail);
    match move
    case Untouched => l
    case Begins => l.(past := l.past.(begun := true), signal := Some(Pending), net := Submits)
    case Stores => l.(table := true)
    case Cancelled => l.(past := Cancel(l.past, l.signal).(closed := true), signal := None, net := Cancels)
    case Accepted =>
      l.(past := l.past.(closed := true, accepted := true), inflight := false, held := h.(queued := h.queued + 1))
    case ConnectionCloses =>
      l.(past := l.past.(gone := true, closed := l.past.closed || l.past.begun), net := ClosesSignals)
    case SignalRetained => l.(past := Cancel(l.past, l.signal), signal := None)
    case EntryRetained => l.(table := false, net := ClosesEntries(false))
    case Submitted(admitted) => l.(inflight := l.inflight || admitted, job := Some(Queued), net := Elsewhere)
    case EntryCancelled => l.(table := false, net := Forgets)
    case PathForgotten => l.(inflight := false, net := Elsewhere)
    case EntriesNext => l.(net := ClosesEntries(l.table))
    case CloseEnds => l.(inflight := false, net := Elsewhere)
    case Advances(job, table) => l.(job := Some(job), table := table)
    case Sends(state) =>
      l.(job := None, mail := if state == Ready then m.(ready := m.ready + 1) else m.(rejected := m.rejected + 1))
    case Arrives(state) =>
      l.(past := l.past.(arrived := true),
         mail := if state == Ready then m.(ready := m.ready - 1) else m.(rejected := m.rejected - 1),
         signal := if l.signal.Some? then Some(state) else None,
         dropping := l.dropping || l.signal.None?)
    case Discarded => l.(table := false, dropping := false)
    case Takes => l.(held := h.(queued := h.queued - 1, took := h.took + 1))
    case Removes =>
      l.(signal := if l.signal == Some(Pending) then l.signal else None, held := AfterRemoval(h, l.signal))
    case Checks =>
      if l.signal.Some? then l.(held := h.(absent := h.absent - 1, retrying := h.retrying + 1))
      else l.(held := h.(absent := h.absent - 1), answers := a.(dropped := a.dropped + 1))
    case Requeues => l.(held := h.(retrying := h.retrying - 1, queued := h.queued + 1))
    case Builds =>
      if l.table then l.(held := h.(building := h.building - 1, removing := h.removing + 1))
      else l.(held := h.(building := h.building - 1), answers := a.(consumed := a.consumed + 1))
    case Unlists => l.(table := false, held := h.(removing := h.removing - 1, handling := h.handling + 1))
    case Handles =>
      l.(held := h.(handling := h.handling - 1), answers := a.(handled := a.handled + 1, consumed := a.consumed + 1))
    case Empties =>
      l.(table := false, held := h.(discarding := h.discarding - 1), answers := a.(consumed := a.consumed + 1))
  }

  // ---------- each move keeps the request's invariant, conjunct by conjunct ----------

  predicate ByNetwork(move: Move) {
    || move.Untouched? || move.Begins? || move.Stores? || move.Cancelled? || move.Accepted? || move.ConnectionCloses?
    || move.SignalRetained? || move.EntryRetained? || move.Submitted? || move.EntryCancelled? || move.PathForgotten?
    || move.EntriesNext? || move.CloseEnds?
  }

  predicate ByHeaders(move: Move) {
    move.Advances? || move.Sends? || move.Arrives? || move.Discarded?
  }

  predicate ByWorkers(move: Move) {
    || move.Takes? || move.Removes? || move.Checks? || move.Requeues? || move.Builds? || move.Unlists?
    || move.Handles? || move.Empties?
  }

  lemma NetworkFresh(c: Config, k: Key, l: Local, move: Move)
    requires LocalInv(c, k, l) && Enabled(c, k, l, move) && ByNetwork(move)
    ensures var m := Moved(c, k, l, move); m.past.begun || Fresh(m)
  {
  }

  /** Only a request that has begun can move on the other threads. */
  lemma HeadersFresh(c: Config, k: Key, l: Local, move: Move)
    requires LocalInv(c, k, l) && Enabled(c, k, l, move) && ByHeaders(move)
    ensures Moved(c, k, l, move).past.begun
  {
  }

  lemma WorkersFresh(c: Config, k: Key, l: Local, move: Move)
    requires LocalInv(c, k, l) && Enabled(c, k, l, move) && ByWorkers(move)
    ensures Moved(c, k, l, move).past.begun
  {
  }

  lemma NetworkSignal(c: Config, k: Key, l: Local, move: Move)
    requires LocalInv(c, k, l) && Enabled(c, k, l, move) && ByNetwork(move)
    ensures SignalInv(c, k, Moved(c, k, l, move))
  {
  }

  lemma NetworkInjection(c: Config, k: Key, l: Local, move: Move)
    requires LocalInv(c, k, l) && Enabled(c, k, l, move) && ByNetwork(move)
    ensures InjectionInv(c, k, Moved(c, k, l, move))
  {
  }

  lemma NetworkTable(c: Config, k: Key, l: Local, move: Move)
    requires LocalInv(c, k, l) && Enabled(c, k, l, move) && ByNetwork(move)
    ensures TableInv(Moved(c, k, l, move))
  {
  }

  lemma HeadersSignal(c: Config, k: Key, l: Local, move: Move)
    requires LocalInv(c, k, l) && Enabled(c, k, l, move) && ByHeaders(move)
    ensures SignalInv(c, k, Moved(c, k, l, move))
  {
  }

  lemma HeadersInjection(c: Config, k: Key, l: Local, move: Move)
    requires LocalInv(c, k, l) && Enabled(c, k, l, move) && ByHeaders(move)
    ensures InjectionInv(c, k, Moved(c, k, l, move))
  {
  }

  lemma HeadersTable(c: Config, k: Key, l: Local, move: Move)
    requires LocalInv(c, k, l) && Enabled(c, k, l, move) && ByHeaders(move)
    ensures TableInv(Moved(c, k, l, move))
  {
  }

  lemma NetworkAdmission(c: Config, k: Key, l: Local, move: Move)
    requires LocalInv(c, k, l) && Enabled(c, k, l, move) && ByNetwork(move)
    ensures AdmissionInv(c, k, Moved(c, k, l, move))
  {
  }

  lemma OthersAdmission(c: Config, k: Key, l: Local, move: Move)
    requires LocalInv(c, k, l) && Enabled(c, k, l, move) && (ByHeaders(move) || ByWorkers(move))
    ensures AdmissionInv(c, k, Moved(c, k, l, move))
  {
  }

  /** The three states a removal can meet. */
  lemma States(signal: Option<State>)
    ensures signal == None || signal == Some(Pending) || signal == Some(Ready) || signal == Some(Rejected)
  {
    match signal
    case None =>
    case Some(Pending) =>
    case Some(Ready) =>
    case Some(Rejected) =>
  }

  lemma WorkersSignal(c: Config, k: Key, l: Local, move: Move)
    requires LocalInv(c, k, l) && Enabled(c, k, l, move) && ByWorkers(move)
    ensures SignalInv(c, k, Moved(c, k, l, move))
  {
    States(l.signal);
  }

  lemma RegisteringInjection(c: Config, k: Key, l: Local, move: Move)
    requires LocalInv(c, k, l) && Enabled(c, k, l, move)
    requires move.Takes? || move.Removes? || move.Checks? || move.Requeues?
    ensures InjectionInv(c, k, Moved(c, k, l, move))
  {
    States(l.signal);
  }

  lemma AnsweringInjection(c: Config, k: Key, l: Local, move: Move)
    requires LocalInv(c, k, l) && Enabled(c, k, l, move)
    requires move.Builds? || move.Unlists? || move.Handles? || move.Empties?
    ensures InjectionInv(c, k, Moved(c, k, l, move))
  {
  }

  lemma WorkersInjection(c: Config, k: Key, l: Local, move: Move)
    requires LocalInv(c, k, l) && Enabled(c, k, l, move) && ByWorkers(move)
    ensures InjectionInv(c, k, Moved(c, k, l, move))
  {
    if move.Takes? || move.Removes? || move.Checks? || move.Requeues? {
      RegisteringInjection(c, k, l, move);
    } else {
      AnsweringInjection(c, k, l, move);
    }
  }

  lemma WorkersTable(c: Config, k: Key, l: Local, move: Move)
    requires LocalInv(c, k, l) && Enabled(c, k, l, move) && ByWorkers(move)
    ensures TableInv(Moved(c, k, l, move))
  {
    States(l.signal);
  }

  lemma MoveInv(c: Config, k: Key, l: Local, move: Move)
    requires LocalInv(c, k, l) && Enabled(c, k, l, move)
    ensures LocalInv(c, k, Moved(c, k, l, move))
  {
    if ByNetwork(move) {
      NetworkFresh(c, k, l, move);
      NetworkSignal(c, k, l, move);
      NetworkInjection(c, k, l, move);
      NetworkTable(c, k, l, move);
      NetworkAdmission(c, k, l, move);
    } else if ByHeaders(move) {
      HeadersFresh(c, k, l, move);
      HeadersSignal(c, k, l, move);
      HeadersInjection(c, k, l, move);
      HeadersTable(c, k, l, move);
      OthersAdmission(c, k, l, move);
    } else {
      WorkersFresh(c, k, l, move);
      WorkersSignal(c, k, l, move);
      WorkersInjection(c, k, l, move);
      WorkersTable(c, k, l, move);
      OthersAdmission(c, k, l, move);
    }
  }

  lemma CountTail<T>(q: seq<T>)
    requires q != []
    ensures multiset(q) == multiset(q[1..]) + multiset{q[0]}
  {
    assert q == [q[0]] + q[1..];
  }

  /** One step, seen by one request, is this move. */
  predicate Follows(c: Config, k: Key, s: Sys, t: Sys, move: Move) {
    var l := Of(s, k);
    Enabled(c, k, l, move) && Of(t, k) == Moved(c, k, l, move)
  }

  lemma FollowsInv(c: Config, k: Key, s: Sys, t: Sys, move: Move)
    requires LocalInv(c, k, Of(s, k)) && Follows(c, k, s, t, move)
    ensures LocalInv(c, k, Of(t, k))
  {
    MoveInv(c, k, Of(s, k), move);
  }

  // ---------- what updating a part of the system changes for one request ----------

  /** Parts the response workers touch. */
  lemma OfWorkers(
    s: Sys, signal: map<Key, State>, table: set<Key>, injections: seq<Key>, tasks: multiset<Task>,
    consumed: multiset<Key>, dropped: multiset<Key>, handled: multiset<Key>, k: Key)
    ensures Of(s.(signal := signal, table := table, injections := injections, tasks := tasks,
                  consumed := consumed, dropped := dropped, handled := handled), k)
      == Of(s, k).(signal := StateOf(signal, k), table := k in table, held := HeldOf(injections, tasks, k),
                   answers := Answers(consumed[k], dropped[k], handled[k]))
  {
  }

  /** Parts the network thread touches while it closes a connection. */
  lemma OfClosing(
    s: Sys, signal: map<Key, State>, table: set<Key>, inflight: set<Key>, net: Net,
    closed: set<Key>, cancelled: set<Key>, gone: set<nat>, k: Key)
    ensures Of(s.(signal := signal, table := table, inflight := inflight, net := net,
                  closed := closed, cancelled := cancelled, gone := gone), k)
      == Of(s, k).(signal := StateOf(signal, k), table := k in table, inflight := k in inflight,
                   net := AttentionOf(net, k),
                   past := Of(s, k).past.(closed := k in closed, cancelled := k in cancelled, gone := k.conn in gone))
  {
  }

  /** Parts the signal receiver touches. */
  lemma OfReceiver(
    s: Sys, signal: map<Key, State>, signals: seq<(Key, State)>, receiver: Receiver, arrived: set<Key>, k: Key)
    ensures Of(s.(signal := signal, signals := signals, receiver := receiver, arrived := arrived), k)
      == Of(s, k).(signal := StateOf(signal, k), mail := MailOf(signals, k), dropping := receiver == Dropping(k),
                   past := Of(s, k).past.(arrived := k in arrived))
  {
  }

  lemma Unmoved(c: Config, k: Key, s: Sys, t: Sys)
    requires Of(t, k) == Of(s, k)
    ensures Follows(c, k, s, t, Untouched)
  {
  }

  // ---------- network thread ----------

  function NetworkMove(s: Sys, c: Config, step: Step, k: Key): Move {
    match step
    case Begin(k0) => if k == k0 && s.net == Idle && k !in s.begun && k.conn !in s.gone then Begins else Untouched
    case Data(k0) => if k == k0 && s.net == Idle && k in s.begun && k !in s.closed then Stores else Untouched
    case Finished(k0) =>
      if k != k0 || s.net != Idle || k !in s.begun || k.conn in s.gone then Untouched
      else if k in s.inflight then Accepted else Cancelled
    case Reset(k0) => if k != k0 || s.net != Idle || k !in s.begun || k.conn in s.gone then Untouched else Cancelled
    case Close(conn) => if k.conn != conn || s.net != Idle then Untouched else ConnectionCloses
    case Visit(k0) =>
      if k != k0 then Untouched
      else if s.net == ClosingSignals(k.conn) then SignalRetained
      else if s.net.ClosingEntries? && s.net.conn == k.conn then EntryRetained else Untouched
    case NetNext =>
      match AttentionOf(s.net, k) {
        case Elsewhere => Untouched
        case Submits => Submitted(c.admitted(k))
        case Cancels => EntryCancelled
        case Forgets => PathForgotten
        case ClosesSignals => if OfConn(s.signal.Keys, k.conn) == {} then EntriesNext else Untouched
        case ClosesEntries(_) => if s.net.ClosingEntries? && s.net.todo == {} then CloseEnds else Untouched
      }
    case _ => Untouched
  }

  lemma BeginsOwn(c: Config, s: Sys, k: Key)
    requires s.net == Idle && k !in s.begun && k.conn !in s.gone
    ensures Follows(c, k, s, BeginStep(s, k), Begins)
  {
  }

  lemma BeginMoves(c: Config, s: Sys, k0: Key, k: Key)
    ensures Follows(c, k, s, BeginStep(s, k0), NetworkMove(s, c, Begin(k0), k))
  {
    if k == k0 && s.net == Idle && k !in s.begun && k.conn !in s.gone {
      BeginsOwn(c, s, k);
    } else {
      assert Of(BeginStep(s, k0), k) == Of(s, k);
      Unmoved(c, k, s, BeginStep(s, k0));
    }
  }

  lemma StoresOwn(c: Config, s: Sys, k: Key)
    requires s.net == Idle && k in s.begun && k !in s.closed
    ensures Follows(c, k, s, DataStep(s, k), Stores)
  {
  }

  lemma DataMoves(c: Config, s: Sys, k0: Key, k: Key)
    ensures Follows(c, k, s, DataStep(s, k0), NetworkMove(s, c, Data(k0), k))
  {
    if k == k0 && s.net == Idle && k in s.begun && k !in s.closed {
      StoresOwn(c, s, k);
    } else {
      assert Of(DataStep(s, k0), k) == Of(s, k);
      Unmoved(c, k, s, DataStep(s, k0));
    }
  }

  lemma CancelOwn(c: Config, s: Sys, k: Key)
    requires s.net == Idle && k in s.begun
    ensures Follows(c, k, s, CancelSignal(s, k), Cancelled)
  {
  }

  lemma CancelMoves(c: Config, s: Sys, k0: Key, k: Key)
    requires s.net == Idle && k0 in s.begun
    ensures Follows(c, k, s, CancelSignal(s, k0), if k == k0 then Cancelled else Untouched)
  {
    if k == k0 {
      CancelOwn(c, s, k);
    } else {
      assert Of(CancelSignal(s, k0), k) == Of(s, k);
      Unmoved(c, k, s, CancelSignal(s, k0));
    }
  }

  lemma AcceptedOwn(c: Config, s: Sys, k: Key)
    requires s.net == Idle && k in s.begun && k in s.inflight && k.conn !in s.gone
    ensures Follows(c, k, s, FinishedStep(s, k), Accepted)
  {
  }

  lemma FinishedOther(s: Sys, k0: Key, k: Key)
    requires k != k0 && (s.net == Idle && k0 in s.begun ==> k0 in s.inflight)
    ensures Of(FinishedStep(s, k0), k) == Of(s, k)
  {
  }

  lemma FinishedMoves(c: Config, s: Sys, k0: Key, k: Key)
    ensures Follows(c, k, s, FinishedStep(s, k0), NetworkMove(s, c, Finished(k0), k))
  {
    if s.net != Idle || k0 !in s.begun || k0.conn in s.gone {
      assert FinishedStep(s, k0) == s;
      Unmoved(c, k, s, s);
    } else if k0 !in s.inflight {
      CancelMoves(c, s, k0, k);
    } else if k == k0 {
      AcceptedOwn(c, s, k);
    } else {
      FinishedOther(s, k0, k);
      Unmoved(c, k, s, FinishedStep(s, k0));
    }
  }

  lemma ResetMoves(c: Config, s: Sys, k0: Key, k: Key)
    ensures Follows(c, k, s, ResetStep(s, k0), NetworkMove(s, c, Reset(k0), k))
  {
    if s.net == Idle && k0 in s.begun && k0.conn !in s.gone {
      CancelMoves(c, s, k0, k);
    } else {
      assert ResetStep(s, k0) == s;
      Unmoved(c, k, s, s);
    }
  }

  lemma CloseOwn(c: Config, s: Sys, k: Key)
    requires s.net == Idle
    ensures Follows(c, k, s, CloseStep(s, k.conn), ConnectionCloses)
  {
    OfClosing(s, s.signal, s.table, s.inflight, ClosingSignals(k.conn),
              s.closed + OfConn(s.begun, k.conn), s.cancelled, s.gone + {k.conn}, k);
  }

  lemma CloseOther(s: Sys, conn: nat, k: Key)
    requires k.conn != conn
    ensures Of(CloseStep(s, conn), k) == Of(s, k)
  {
    OfClosing(s, s.signal, s.table, s.inflight, ClosingSignals(conn),
              s.closed + OfConn(s.begun, conn), s.cancelled, s.gone + {conn}, k);
  }

  lemma CloseMoves(c: Config, s: Sys, conn: nat, k: Key)
    ensures Follows(c, k, s, CloseStep(s, conn), NetworkMove(s, c, Close(conn), k))
  {
    if s.net == Idle && k.conn == conn {
      CloseOwn(c, s, k);
    } else {
      if s.net == Idle {
        CloseOther(s, conn, k);
      }
      Unmoved(c, k, s, CloseStep(s, conn));
    }
  }

  lemma RetainSignalOwn(c: Config, s: Sys, k: Key)
    requires s.net == ClosingSignals(k.conn)
    ensures Follows(c, k, s, VisitStep(s, k), SignalRetained)
  {
    var cancelled := if k in s.signal then s.cancelled + {k} else s.cancelled;
    OfClosing(s, s.signal - {k}, s.table, s.inflight, s.net, s.closed, cancelled, s.gone, k);
  }

  lemma RetainSignalOther(s: Sys, k0: Key, k: Key)
    requires s.net.ClosingSignals? && (k != k0 || s.net != ClosingSignals(k.conn))
    ensures Of(VisitStep(s, k0), k) == Of(s, k)
  {
    var cancelled := if k0 in s.signal then s.cancelled + {k0} else s.cancelled;
    OfClosing(s, s.signal - {k0}, s.table, s.inflight, s.net, s.closed, cancelled, s.gone, k);
  }

  lemma RetainSignalMoves(c: Config, s: Sys, k0: Key, k: Key)
    requires s.net.ClosingSignals?
    ensures Follows(c, k, s, VisitStep(s, k0), NetworkMove(s, c, Visit(k0), k))
  {
    if k == k0 && s.net == ClosingSignals(k.conn) {
      RetainSignalOwn(c, s, k);
    } else {
      RetainSignalOther(s, k0, k);
      Unmoved(c, k, s, VisitStep(s, k0));
    }
  }

  lemma RetainEntryOwn(c: Config, s: Sys, k: Key)
    requires s.net.ClosingEntries? && s.net.conn == k.conn
    ensures Follows(c, k, s, VisitStep(s, k), EntryRetained)
  {
    var net := ClosingEntries(s.net.conn, s.net.todo - {k});
    OfClosing(s, s.signal, s.table - {k}, s.inflight, net, s.closed, s.cancelled, s.gone, k);
  }

  lemma RetainEntryOther(s: Sys, k0: Key, k: Key)
    requires s.net.ClosingEntries? && (k != k0 || s.net.conn != k.conn)
    ensures Of(VisitStep(s, k0), k) == Of(s, k)
  {
    var net := ClosingEntries(s.net.conn, s.net.todo - {k0});
    OfClosing(s, s.signal, s.table - {k0}, s.inflight, net, s.closed, s.cancelled, s.gone, k);
  }

  lemma RetainEntryMoves(c: Config, s: Sys, k0: Key, k: Key)
    requires s.net.ClosingEntries?
    ensures Follows(c, k, s, VisitStep(s, k0), NetworkMove(s, c, Visit(k0), k))
  {
    if k == k0 && s.net.conn == k.conn {
      RetainEntryOwn(c, s, k);
    } else {
      RetainEntryOther(s, k0, k);
      Unmoved(c, k, s, VisitStep(s, k0));
    }
  }

  lemma SubmitMoves(c: Config, s: Sys, k: Key)
    requires s.net.Submitting?
    ensures Follows(c, k, s, NetStep(s, c), NetworkMove(s, c, NetNext, k))
  {
  }

  lemma ForgetMoves(c: Config, s: Sys, k: Key)
    requires s.net.Cancelling? || s.net.Forgetting?
    ensures Follows(c, k, s, NetStep(s, c), NetworkMove(s, c, NetNext, k))
  {
  }

  lemma SignalsClosedOf(s: Sys, k: Key)
    requires s.net.ClosingSignals? && OfConn(s.signal.Keys, s.net.conn) == {}
    ensures var (l, t) := (Of(s, k), NetStep(s, Config(_ => true, _ => [], _ => true)));
      t == s.(net := ClosingEntries(s.net.conn, OfConn(s.table, s.net.conn)))
      && Of(t, k) == if k.conn == s.net.conn then l.(net := ClosesEntries(l.table)) else l
  {
    var conn := s.net.conn;
    OfClosing(s, s.signal, s.table, s.inflight, ClosingEntries(conn, OfConn(s.table, conn)),
              s.closed, s.cancelled, s.gone, k);
  }

  lemma SignalsClosedMoves(c: Config, s: Sys, k: Key)
    requires s.net.ClosingSignals?
    ensures Follows(c, k, s, NetStep(s, c), NetworkMove(s, c, NetNext, k))
  {
    if OfConn(s.signal.Keys, s.net.conn) != {} {
      Unmoved(c, k, s, s);
    } else {
      assert k in s.signal ==> k in OfConn(s.signal.Keys, k.conn);
      SignalsClosedOf(s, k);
      if k.conn != s.net.conn {
        Unmoved(c, k, s, NetStep(s, c));
      }
    }
  }

  lemma EntriesClosedOwn(c: Config, s: Sys, k: Key)
    requires s.net.ClosingEntries? && s.net.todo == {} && k.conn == s.net.conn
    ensures Follows(c, k, s, NetStep(s, c), CloseEnds)
  {
    var left := s.inflight - OfConn(s.inflight, s.net.conn);
    OfClosing(s, s.signal, s.table, left, Idle, s.closed, s.cancelled, s.gone, k);
  }

  lemma EntriesClosedMoves(c: Config, s: Sys, k: Key)
    requires s.net.ClosingEntries?
    ensures Follows(c, k, s, NetStep(s, c), NetworkMove(s, c, NetNext, k))
  {
    if s.net.todo == {} && k.conn == s.net.conn {
      EntriesClosedOwn(c, s, k);
    } else {
      var left := s.inflight - OfConn(s.inflight, s.net.conn);
      OfClosing(s, s.signal, s.table, left, Idle, s.closed, s.cancelled, s.gone, k);
      Unmoved(c, k, s, NetStep(s, c));
    }
  }

  // ---------- header processor, middleware workers, signal receiver ----------

  function JobMove(s: Sys, c: Config, stored: bool, k: Key): Move
    requires k in s.jobs
  {
    match s.jobs[k]
    case Queued => if c.routed(k) then Advances(Running(0), k in s.table) else Sends(Rejected)
    case Running(done) =>
      if done >= |c.chain(k)| then Advances(Looked(k in s.table), k in s.table)
      else if c.chain(k)[done] == Continue then Advances(Running(done + 1), k in s.table)
      else Sends(Rejected)
    case Looked(present) => Advances(if present || k in s.table then Announcing else Creating, k in s.table)
    case Creating => Advances(Announcing, stored || k in s.table)
    case Announcing => Sends(Ready)
  }

  lemma JobEnabled(c: Config, s: Sys, stored: bool, k: Key)
    requires k in s.jobs && JobInv(c, k, s.jobs[k])
    ensures Enabled(c, k, Of(s, k), JobMove(s, c, stored, k))
  {
  }

  lemma SendMail(signals: seq<(Key, State)>, k0: Key, state: State, k: Key)
    requires state != Pending
    ensures MailOf(signals + [(k0, state)], k) ==
      var m := MailOf(signals, k);
      if k != k0 then m
      else if state == Ready then m.(ready := m.ready + 1) else m.(rejected := m.rejected + 1)
  {
  }

  lemma SendSignalMoves(s: Sys, k0: Key, state: State, k: Key)
    requires state != Pending
    ensures Of(SendSignal(s, k0, state), k) ==
      var l := Of(s, k);
      if k != k0 then l
      else l.(job := None, mail := MailOf(s.signals + [(k, state)], k))
  {
    SendMail(s.signals, k0, state, k);
  }

  function Advanced(s: Sys, k: Key, job: Job, table: bool): Sys {
    s.(table := if table then s.table + {k} else s.table, jobs := s.jobs[k := job])
  }

  lemma JobSends(c: Config, s: Sys, k: Key, stored: bool)
    requires k in s.jobs && JobMove(s, c, stored, k).Sends?
    ensures var move := JobMove(s, c, stored, k);
      move.state != Pending && JobStep(s, c, k, stored) == SendSignal(s, k, move.state)
  {
  }

  lemma JobAdvances(c: Config, s: Sys, k: Key, stored: bool)
    requires k in s.jobs && JobMove(s, c, stored, k).Advances?
    ensures var move := JobMove(s, c, stored, k);
      (k in s.table ==> move.table) && JobStep(s, c, k, stored) == Advanced(s, k, move.job, move.table)
  {
    assert k in s.table ==> s.table + {k} == s.table;
    match s.jobs[k]
    case Queued =>
    case Running(_) =>
    case Looked(_) =>
    case Creating =>
    case Announcing =>
  }

  /** A job step either advances the job or sends the request's one signal. */
  lemma JobSteps(c: Config, s: Sys, k: Key, stored: bool)
    requires k in s.jobs
    ensures var (move, t) := (JobMove(s, c, stored, k), JobStep(s, c, k, stored));
      || (move.Advances? && (k in s.table ==> move.table) && t == Advanced(s, k, move.job, move.table))
      || (move.Sends? && move.state != Pending && t == SendSignal(s, k, move.state))
  {
    if JobMove(s, c, stored, k).Sends? {
      JobSends(c, s, k, stored);
    } else {
      JobAdvances(c, s, k, stored);
    }
  }

  lemma AdvanceMoves(s: Sys, k0: Key, job: Job, table: bool, k: Key)
    requires k0 in s.jobs && (k0 in s.table ==> table)
    ensures Of(Advanced(s, k0, job, table), k) ==
      var l := Of(s, k);
      if k != k0 then l else l.(job := Some(job), table := table)
  {
  }

  lemma JobMoves(c: Config, s: Sys, k0: Key, stored: bool, k: Key)
    requires k0 in s.jobs && (k == k0 ==> JobInv(c, k, s.jobs[k]))
    ensures Follows(c, k, s, JobStep(s, c, k0, stored), if k == k0 then JobMove(s, c, stored, k) else Untouched)
  {
    var move := JobMove(s, c, stored, k0);
    JobSteps(c, s, k0, stored);
    if move.Sends? {
      SendSignalMoves(s, k0, move.state, k);
      SendMail(s.signals, k0, move.state, k);
    } else {
      AdvanceMoves(s, k0, move.job, move.table, k);
    }
    if k == k0 {
      JobEnabled(c, s, stored, k);
    }
  }

  lemma DroppingMoves(c: Config, s: Sys, k: Key)
    requires s.receiver.Dropping?
    ensures Follows(c, k, s, ReceiveStep(s), if s.receiver.k == k then Discarded else Untouched)
  {
  }

  lemma ReceivedMail(signals: seq<(Key, State)>, k: Key)
    requires signals != [] && MailOf(signals, k).pending == 0
    ensures signals[0].0 != k ==> MailOf(signals[1..], k) == MailOf(signals, k)
    ensures signals[0].0 == k ==>
      var (m, state) := (MailOf(signals, k), signals[0].1);
      || (state == Ready && m.ready > 0 && MailOf(signals[1..], k) == m.(ready := m.ready - 1))
      || (state == Rejected && m.rejected > 0 && MailOf(signals[1..], k) == m.(rejected := m.rejected - 1))
  {
    CountTail(signals);
    var (k0, state) := signals[0];
    assert multiset(signals)[(k0, state)] > 0;
    match state
    case Pending =>
    case Ready =>
    case Rejected =>
  }

  lemma DeliveryMoves(c: Config, s: Sys, k: Key)
    requires s.receiver.Listening? && s.signals != [] && MailOf(s.signals, k).pending == 0
    requires s.signals[0].0 in s.signal
    ensures Follows(c, k, s, ReceiveStep(s), if s.signals[0].0 == k then Arrives(s.signals[0].1) else Untouched)
  {
    var (k0, state) := s.signals[0];
    ReceivedMail(s.signals, k);
    OfReceiver(s, s.signal[k0 := state], s.signals[1..], s.receiver, s.arrived + {k0}, k);
  }

  lemma LateSignalMoves(c: Config, s: Sys, k: Key)
    requires s.receiver.Listening? && s.signals != [] && MailOf(s.signals, k).pending == 0
    requires s.signals[0].0 !in s.signal
    ensures Follows(c, k, s, ReceiveStep(s), if s.signals[0].0 == k then Arrives(s.signals[0].1) else Untouched)
  {
    var k0 := s.signals[0].0;
    ReceivedMail(s.signals, k);
    OfReceiver(s, s.signal, s.signals[1..], Dropping(k0), s.arrived + {k0}, k);
  }

  // ---------- response workers ----------

  function TaskMove(task: Task): Move {
    match task
    case Took(_) => Removes
    case Absent(_) => Checks
    case Retrying(_) => Requeues
    case Building(_) => Builds
    case Removing(_) => Unlists
    case Handling(_) => Handles
    case Discarding(_) => Empties
  }

  /** One injection fewer, or one more, in the place a task stands for. */
  function Changed(h: Held, task: Task, step: int): Held
    requires step == 1 || step == -1
    requires step == -1 ==> match task {
        case Took(_) => h.took > 0
        case Absent(_) => h.absent > 0
        case Retrying(_) => h.retrying > 0
        case Building(_) => h.building > 0
        case Removing(_) => h.removing > 0
        case Handling(_) => h.handling > 0
        case Discarding(_) => h.discarding > 0
      }
  {
    match task
    case Took(_) => h.(took := h.took + step)
    case Absent(_) => h.(absent := h.absent + step)
    case Retrying(_) => h.(retrying := h.retrying + step)
    case Building(_) => h.(building := h.building + step)
    case Removing(_) => h.(removing := h.removing + step)
    case Handling(_) => h.(handling := h.handling + step)
    case Discarding(_) => h.(discarding := h.discarding + step)
  }

  lemma HeldWithout(injections: seq<Key>, tasks: multiset<Task>, task: Task, k: Key)
    requires task in tasks
    ensures var (h, rest) := (HeldOf(injections, tasks, k), HeldOf(injections, tasks - multiset{task}, k));
      rest == if task.k == k then Changed(h, task, -1) else h
  {
  }

  lemma HeldWith(injections: seq<Key>, tasks: multiset<Task>, task: Task, k: Key)
    ensures var (h, more) := (HeldOf(injections, tasks, k), HeldOf(injections, tasks + multiset{task}, k));
      more == if task.k == k then Changed(h, task, 1) else h
  {
  }

  lemma HeldQueued(injections: seq<Key>, tasks: multiset<Task>, k0: Key, k: Key)
    ensures var (h, more) := (HeldOf(injections, tasks, k), HeldOf(injections + [k0], tasks, k));
      more == if k0 == k then h.(queued := h.queued + 1) else h
  {
  }

  /** The move of a task's own request; to any other request the step is nothing. */
  function Own(task: Task, k: Key): Move {
    if task.k == k then TaskMove(task) else Untouched
  }

  /** What the attempt to remove `k0`'s disposition leaves for `k`, and where it sends the injection. */
  lemma RemovedState(signal: map<Key, State>, k0: Key, k: Key)
    ensures var (rest, state) := RemoveUnlessPending(signal, k0);
      && StateOf(rest, k) == (if k == k0 && StateOf(signal, k) != Some(Pending) then None else StateOf(signal, k))
      && state == (if StateOf(signal, k0) == Some(Pending) then None else StateOf(signal, k0))
  {
  }

  lemma TookOf(s: Sys, k0: Key, k: Key)
    requires Took(k0) in s.tasks
    ensures var (l, t) := (Of(s, k), TaskStep(s, Took(k0)));
      Of(t, k) == if k == k0 then
          l.(signal := if l.signal == Some(Pending) then l.signal else None, held := AfterRemoval(l.held, l.signal))
        else l
  {
    var (signal, state) := RemoveUnlessPending(s.signal, k0);
    var next := if state.None? then Absent(k0) else if state.value == Ready then Building(k0) else Discarding(k0);
    var rest := s.tasks - multiset{Took(k0)};
    RemovedState(s.signal, k0, k);
    HeldWithout(s.injections, s.tasks, Took(k0), k);
    HeldWith(s.injections, rest, next, k);
    OfWorkers(s, signal, s.table, s.injections, rest + multiset{next}, s.consumed, s.dropped, s.handled, k);
  }

  /** A worker's task can always make its move. */
  lemma OwnMoves(c: Config, s: Sys, task: Task, k: Key)
    requires task in s.tasks && task.k == k
    ensures Enabled(c, k, Of(s, k), TaskMove(task))
  {
  }

  lemma TookMoves(c: Config, s: Sys, k0: Key, k: Key)
    requires Took(k0) in s.tasks
    ensures Follows(c, k, s, TaskStep(s, Took(k0)), Own(Took(k0), k))
  {
    TookOf(s, k0, k);
    if k != k0 {
      Unmoved(c, k, s, TaskStep(s, Took(k0)));
    }
  }

  lemma AbsentRetries(s: Sys, k0: Key, k: Key)
    requires Absent(k0) in s.tasks && k0 in s.signal
    ensures var (l, t) := (Of(s, k), TaskStep(s, Absent(k0)));
      Of(t, k) == if k != k0 then l
        else l.(held := l.held.(absent := l.held.absent - 1, retrying := l.held.retrying + 1))
  {
    var rest := s.tasks - multiset{Absent(k0)};
    HeldWithout(s.injections, s.tasks, Absent(k0), k);
    HeldWith(s.injections, rest, Retrying(k0), k);
    OfWorkers(s, s.signal, s.table, s.injections, rest + multiset{Retrying(k0)}, s.consumed, s.dropped, s.handled, k);
  }

  lemma AbsentDrops(s: Sys, k0: Key, k: Key)
    requires Absent(k0) in s.tasks && k0 !in s.signal
    ensures var (l, t) := (Of(s, k), TaskStep(s, Absent(k0)));
      Of(t, k) == if k != k0 then l
        else l.(held := l.held.(absent := l.held.absent - 1), answers := l.answers.(dropped := l.answers.dropped + 1))
  {
    var rest := s.tasks - multiset{Absent(k0)};
    HeldWithout(s.injections, s.tasks, Absent(k0), k);
    OfWorkers(s, s.signal, s.table, s.injections, rest, s.consumed, s.dropped + multiset{k0}, s.handled, k);
  }

  lemma AbsentMoves(c: Config, s: Sys, k0: Key, k: Key)
    requires Absent(k0) in s.tasks
    ensures Follows(c, k, s, TaskStep(s, Absent(k0)), Own(Absent(k0), k))
  {
    if k0 in s.signal { AbsentRetries(s, k0, k); } else { AbsentDrops(s, k0, k); }
    if k == k0 {
      OwnMoves(c, s, Absent(k), k);
    } else {
      Unmoved(c, k, s, TaskStep(s, Absent(k0)));
    }
  }

  lemma RetryingOf(s: Sys, k0: Key, k: Key)
    requires Retrying(k0) in s.tasks
    ensures var (l, t) := (Of(s, k), TaskStep(s, Retrying(k0)));
      Of(t, k) == if k != k0 then l
        else l.(held := l.held.(retrying := l.held.retrying - 1, queued := l.held.queued + 1))
  {
    var rest := s.tasks - multiset{Retrying(k0)};
    HeldWithout(s.injections, s.tasks, Retrying(k0), k);
    HeldQueued(s.injections, rest, k0, k);
    OfWorkers(s, s.signal, s.table, s.injections + [k0], rest, s.consumed, s.dropped, s.handled, k);
  }

  lemma RetryingMoves(c: Config, s: Sys, k0: Key, k: Key)
    requires Retrying(k0) in s.tasks
    ensures Follows(c, k, s, TaskStep(s, Retrying(k0)), Own(Retrying(k0), k))
  {
    RetryingOf(s, k0, k);
    if k != k0 {
      Unmoved(c, k, s, TaskStep(s, Retrying(k0)));
    }
  }

  lemma BuildsOf(s: Sys, k0: Key, k: Key)
    requires Building(k0) in s.tasks && k0 in s.table
    ensures var (l, t) := (Of(s, k), TaskStep(s, Building(k0)));
      Of(t, k) == if k != k0 then l
        else l.(held := l.held.(building := l.held.building - 1, removing := l.held.removing + 1))
  {
    var rest := s.tasks - multiset{Building(k0)};
    HeldWithout(s.injections, s.tasks, Building(k0), k);
    HeldWith(s.injections, rest, Removing(k0), k);
    OfWorkers(s, s.signal, s.table, s.injections, rest + multiset{Removing(k0)}, s.consumed, s.dropped, s.handled, k);
  }

  lemma BuildsNothingOf(s: Sys, k0: Key, k: Key)
    requires Building(k0) in s.tasks && k0 !in s.table
    ensures var (l, t) := (Of(s, k), TaskStep(s, Building(k0)));
      Of(t, k) == if k != k0 then l
        else l.(held := l.held.(building := l.held.building - 1),
                answers := l.answers.(consumed := l.answers.consumed + 1))
  {
    var rest := s.tasks - multiset{Building(k0)};
    HeldWithout(s.injections, s.tasks, Building(k0), k);
    OfWorkers(s, s.signal, s.table, s.injections, rest, s.consumed + multiset{k0}, s.dropped, s.handled, k);
  }

  lemma BuildingMoves(c: Config, s: Sys, k0: Key, k: Key)
    requires Building(k0) in s.tasks
    ensures Follows(c, k, s, TaskStep(s, Building(k0)), Own(Building(k0), k))
  {
    if k0 in s.table { BuildsOf(s, k0, k); } else { BuildsNothingOf(s, k0, k); }
    if k == k0 {
      OwnMoves(c, s, Building(k), k);
    } else {
      Unmoved(c, k, s, TaskStep(s, Building(k0)));
    }
  }

  lemma RemovingOf(s: Sys, k0: Key, k: Key)
    requires Removing(k0) in s.tasks
    ensures var (l, t) := (Of(s, k), TaskStep(s, Removing(k0)));
      Of(t, k) == if k != k0 then l
        else l.(table := false, held := l.held.(removing := l.held.removing - 1, handling := l.held.handling + 1))
  {
    var rest := s.tasks - multiset{Removing(k0)};
    HeldWithout(s.injections, s.tasks, Removing(k0), k);
    HeldWith(s.injections, rest, Handling(k0), k);
    OfWorkers(s, s.signal, s.table - {k0}, s.injections, rest + multiset{Handling(k0)},
              s.consumed, s.dropped, s.handled, k);
  }

  lemma RemovingMoves(c: Config, s: Sys, k0: Key, k: Key)
    requires Removing(k0) in s.tasks
    ensures Follows(c, k, s, TaskStep(s, Removing(k0)), Own(Removing(k0), k))
  {
    RemovingOf(s, k0, k);
    if k != k0 {
      Unmoved(c, k, s, TaskStep(s, Removing(k0)));
    }
  }

  lemma HandlingOf(s: Sys, k0: Key, k: Key)
    requires Handling(k0) in s.tasks
    ensures var (l, t) := (Of(s, k), TaskStep(s, Handling(k0)));
      Of(t, k) == if k != k0 then l
        else l.(held := l.held.(handling := l.held.handling - 1),
                answers := l.answers.(handled := l.answers.handled + 1, consumed := l.answers.consumed + 1))
  {
    var rest := s.tasks - multiset{Handling(k0)};
    HeldWithout(s.injections, s.tasks, Handling(k0), k);
    OfWorkers(s, s.signal, s.table, s.injections, rest,
              s.consumed + multiset{k0}, s.dropped, s.handled + multiset{k0}, k);
  }

  lemma HandlingMoves(c: Config, s: Sys, k0: Key, k: Key)
    requires Handling(k0) in s.tasks
    ensures Follows(c, k, s, TaskStep(s, Handling(k0)), Own(Handling(k0), k))
  {
    HandlingOf(s, k0, k);
    if k != k0 {
      Unmoved(c, k, s, TaskStep(s, Handling(k0)));
    }
  }

  lemma DiscardingOf(s: Sys, k0: Key, k: Key)
    requires Discarding(k0) in s.tasks
    ensures var (l, t) := (Of(s, k), TaskStep(s, Discarding(k0)));
      Of(t, k) == if k != k0 then l
        else l.(table := false, held := l.held.(discarding := l.held.discarding - 1),
                answers := l.answers.(consumed := l.answers.consumed + 1))
  {
    var rest := s.tasks - multiset{Discarding(k0)};
    HeldWithout(s.injections, s.tasks, Discarding(k0), k);
    OfWorkers(s, s.signal, s.table - {k0}, s.injections, rest, s.consumed + multiset{k0}, s.dropped, s.handled, k);
  }

  lemma DiscardingMoves(c: Config, s: Sys, k0: Key, k: Key)
    requires Discarding(k0) in s.tasks
    ensures Follows(c, k, s, TaskStep(s, Discarding(k0)), Own(Discarding(k0), k))
  {
    DiscardingOf(s, k0, k);
    if k != k0 {
      Unmoved(c, k, s, TaskStep(s, Discarding(k0)));
    }
  }

  lemma TakenHeld(injections: seq<Key>, tasks: multiset<Task>, k: Key)
    requires injections != []
    ensures var (h, k0) := (HeldOf(injections, tasks, k), injections[0]);
      && (k == k0 ==> h.queued > 0)
      && HeldOf(injections[1..], tasks + multiset{Took(k0)}, k)
         == if k == k0 then h.(queued := h.queued - 1, took := h.took + 1) else h
  {
    CountTail(injections);
    HeldWith(injections[1..], tasks, Took(injections[0]), k);
  }

  lemma TakeMoves(c: Config, s: Sys, k: Key)
    requires s.injections != []
    ensures Follows(c, k, s, TakeStep(s), if s.injections[0] == k then Takes else Untouched)
  {
    var k0 := s.injections[0];
    TakenHeld(s.injections, s.tasks, k);
    OfWorkers(s, s.signal, s.table, s.injections[1..], s.tasks + multiset{Took(k0)},
              s.consumed, s.dropped, s.handled, k);
    if k != k0 {
      Unmoved(c, k, s, TakeStep(s));
    }
  }

  lemma TaskMoves(c: Config, s: Sys, task: Task, k: Key)
    requires task in s.tasks
    ensures Follows(c, k, s, TaskStep(s, task), Own(task, k))
  {
    match task
    case Took(k0) => TookMoves(c, s, k0, k);
    case Absent(k0) => AbsentMoves(c, s, k0, k);
    case Retrying(k0) => RetryingMoves(c, s, k0, k);
    case Building(k0) => BuildingMoves(c, s, k0, k);
    case Removing(k0) => RemovingMoves(c, s, k0, k);
    case Handling(k0) => HandlingMoves(c, s, k0, k);
    case Discarding(k0) => DiscardingMoves(c, s, k0, k);
  }

  // ---------- every step ----------

  /** The move that a step is for a request. */
  function MoveOf(c: Config, s: Sys, step: Step, k: Key): Move {
    match step
    case JobNext(k0, stored) => if k == k0 && k in s.jobs then JobMove(s, c, stored, k) else Untouched
    case Receive =>
      if s.receiver.Dropping? then if s.receiver.k == k then Discarded else Untouched
      else if s.signals != [] && s.signals[0].0 == k then Arrives(s.signals[0].1) else Untouched
    case Take => if s.injections != [] && s.injections[0] == k then Takes else Untouched
    case TaskNext(task) => if task in s.tasks then Own(task, k) else Untouched
    case _ => NetworkMove(s, c, step, k)
  }

  lemma VisitMoves(c: Config, s: Sys, k0: Key, k: Key)
    ensures Follows(c, k, s, VisitStep(s, k0), NetworkMove(s, c, Visit(k0), k))
  {
    if s.net.ClosingSignals? {
      RetainSignalMoves(c, s, k0, k);
    } else if s.net.ClosingEntries? {
      RetainEntryMoves(c, s, k0, k);
    } else {
      Unmoved(c, k, s, VisitStep(s, k0));
    }
  }

  lemma NetNextMoves(c: Config, s: Sys, k: Key)
    ensures Follows(c, k, s, NetStep(s, c), NetworkMove(s, c, NetNext, k))
  {
    match s.net
    case Idle => Unmoved(c, k, s, NetStep(s, c));
    case Submitting(_) => SubmitMoves(c, s, k);
    case Cancelling(_) => ForgetMoves(c, s, k);
    case Forgetting(_) => ForgetMoves(c, s, k);
    case ClosingSignals(_) => SignalsClosedMoves(c, s, k);
    case ClosingEntries(_, _) => EntriesClosedMoves(c, s, k);
  }

  /** What an event of the connection does to a request. */
  lemma EventMoves(c: Config, s: Sys, step: Step, k: Key)
    requires step.Begin? || step.Data? || step.Finished? || step.Reset?
    ensures Follows(c, k, s, Apply(c, s, step), NetworkMove(s, c, step, k))
  {
    match step
    case Begin(k0) => BeginMoves(c, s, k0, k);
    case Data(k0) => DataMoves(c, s, k0, k);
    case Finished(k0) => FinishedMoves(c, s, k0, k);
    case Reset(k0) => ResetMoves(c, s, k0, k);
  }

  lemma NetworkMoves(c: Config, s: Sys, step: Step, k: Key)
    requires !step.JobNext? && !step.Receive? && !step.Take? && !step.TaskNext?
    ensures Follows(c, k, s, Apply(c, s, step), NetworkMove(s, c, step, k))
  {
    match step
    case Close(conn) => CloseMoves(c, s, conn, k);
    case Visit(k0) => VisitMoves(c, s, k0, k);
    case NetNext => NetNextMoves(c, s, k);
    case _ => EventMoves(c, s, step, k);
  }

  lemma HeaderStepMoves(c: Config, s: Sys, k0: Key, stored: bool, k: Key)
    requires LocalInv(c, k, Of(s, k))
    ensures Follows(c, k, s, JobStep(s, c, k0, stored), MoveOf(c, s, JobNext(k0, stored), k))
  {
    if k0 in s.jobs {
      JobMoves(c, s, k0, stored, k);
    }
  }

  lemma ReceiveMoves(c: Config, s: Sys, k: Key)
    requires MailOf(s.signals, k).pending == 0
    ensures Follows(c, k, s, ReceiveStep(s), MoveOf(c, s, Receive, k))
  {
    if s.receiver.Dropping? {
      DroppingMoves(c, s, k);
    } else if s.signals == [] {
    } else if s.signals[0].0 in s.signal {
      DeliveryMoves(c, s, k);
    } else {
      LateSignalMoves(c, s, k);
    }
  }

  lemma TakeStepMoves(c: Config, s: Sys, k: Key)
    ensures Follows(c, k, s, TakeStep(s), MoveOf(c, s, Take, k))
  {
    if s.injections == [] {
      Unmoved(c, k, s, TakeStep(s));
    } else {
      TakeMoves(c, s, k);
    }
  }

  lemma TaskStepMoves(c: Config, s: Sys, task: Task, k: Key)
    ensures Follows(c, k, s, Apply(c, s, TaskNext(task)), MoveOf(c, s, TaskNext(task), k))
  {
    if task in s.tasks {
      TaskMoves(c, s, task, k);
    } else {
      Unmoved(c, k, s, s);
    }
  }

  /** Every step is, for each request, the move named above. */
  lemma StepMoves(c: Config, s: Sys, step: Step, k: Key)
    requires LocalInv(c, k, Of(s, k))
    ensures Follows(c, k, s, Apply(c, s, step), MoveOf(c, s, step, k))
  {
    match step
    case JobNext(k0, stored) => HeaderStepMoves(c, s, k0, stored, k);
    case Receive => ReceiveMoves(c, s, k);
    case Take => TakeStepMoves(c, s, k);
    case TaskNext(task) => TaskStepMoves(c, s, task, k);
    case _ => NetworkMoves(c, s, step, k);
  }

  // ---------- runs ----------

  lemma StepInv(c: Config, s: Sys, step: Step)
    requires Inv(c, s)
    ensures Inv(c, Apply(c, s, step))
  {
    forall k
      ensures LocalInv(c, k, Of(Apply(c, s, step), k))
    {
      StepMoves(c, s, step, k);
      FollowsInv(c, k, s, Apply(c, s, step), MoveOf(c, s, step, k));
    }
  }

  lemma {:induction false} RunInv(c: Config, s: Sys, steps: seq<Step>)
    requires Inv(c, s)
    ensures Inv(c, Run(c, s, steps))
    decreases |steps|
  {
    if steps == [] {
    } else {
      StepInv(c, s, steps[0]);
      RunInv(c, Apply(c, s, steps[0]), steps[1..]);
    }
  }

  lemma Reachable(c: Config, steps: seq<Step>)
    ensures Inv(c, Run(c, START, steps))
  {
    assert Inv(c, START);
    RunInv(c, START, steps);
  }

  // ---------- what every run guarantees ----------

  /**
   * The handler runs at most once per request, and only for a request whose path was admitted, whose FIN was
   * accepted, whose route exists, all of whose middlewares continued, whose signal arrived, and whose key no
   * cancel removed first. No FIN is accepted and no stream is marked for a path that was not admitted.
   */
  lemma HandlerRunsOnlyForAdmittedRequests(c: Config, steps: seq<Step>, k: Key)
    ensures var s := Run(c, START, steps);
      && s.handled[k] <= 1
      && (s.handled[k] > 0 ==>
            && c.admitted(k) && c.routed(k) && (forall i | 0 <= i < |c.chain(k)| :: c.chain(k)[i] == Continue)
            && k in s.begun && k in s.accepted && k in s.arrived && k !in s.cancelled)
      && (k in s.accepted || k in s.inflight ==> c.admitted(k))
  {
    Reachable(c, steps);
    assert LocalInv(c, k, Of(Run(c, START, steps), k));
  }

  /** Once the disposition is known it is the right one, and it is decided exactly once. */
  lemma DispositionIsExact(c: Config, steps: seq<Step>, k: Key)
    ensures var s := Run(c, START, steps);
      && (k in s.signal ==> k in s.begun)
      && (k in s.signal && s.signal[k] == Pending ==> k !in s.arrived)
      && (k in s.signal && s.signal[k] != Pending ==> k in s.arrived && (s.signal[k] == Ready <==> Passes(c, k)))
  {
    Reachable(c, steps);
    assert LocalInv(c, k, Of(Run(c, START, steps), k));
    var s := Run(c, START, steps);
    if k in s.signal {
      match s.signal[k]
      case Pending =>
      case Ready =>
      case Rejected =>
    }
  }

  /** The response workers holding this request's injection. */
  function Holders(tasks: multiset<Task>, k: Key): nat {
    tasks[Took(k)] + tasks[Absent(k)] + tasks[Retrying(k)] + tasks[Building(k)]
    + tasks[Removing(k)] + tasks[Handling(k)] + tasks[Discarding(k)]
  }

  /**
   * An accepted FIN's injection is in exactly one place: the queue, one worker, answered or dropped;
   * it is dropped only when a cancel removed the key.
   */
  lemma InjectionsAreConserved(c: Config, steps: seq<Step>, k: Key)
    ensures var s := Run(c, START, steps);
      && multiset(s.injections)[k] + Holders(s.tasks, k) + s.consumed[k] + s.dropped[k]
         == (if k in s.accepted then 1 else 0)
      && (s.dropped[k] > 0 ==> k in s.cancelled)
      && (k in s.cancelled ==> s.consumed[k] == 0)
  {
    Reachable(c, steps);
    assert LocalInv(c, k, Of(Run(c, START, steps), k));
  }

  /** After the signal, one undisturbed registration answers: it removes the key and never hands the injection back. */
  lemma OneRegisterAnswers(c: Config, s: Sys, k: Key)
    requires LocalInv(c, k, Of(s, k)) && Took(k) in s.tasks && k in s.arrived && k !in s.cancelled
    ensures var t := TaskStep(s, Took(k));
      k !in t.signal && (if Passes(c, k) then Building(k) in t.tasks else Discarding(k) in t.tasks)
  {
    assert s.signal[k] == Ready || s.signal[k] == Rejected by {
      match s.signal[k]
      case Pending =>
      case Ready =>
      case Rejected =>
    }
  }

  /** No thread and no channel still holds anything about the request. */
  predicate Quiet(s: Sys, k: Key) {
    && k !in s.jobs && AttentionOf(s.net, k) == Elsewhere && s.receiver != Dropping(k)
    && MailOf(s.signals, k) == Mail(0, 0, 0)
    && k !in s.injections && Holders(s.tasks, k) == 0
  }

  /**
   * Nothing leaks: when a request has ended and nobody holds anything about it any more, the
   * disposition map, the request table and the in-flight set hold nothing for it; this includes a
   * middleware worker that made the entry after the cancel.
   */
  lemma NothingLeaks(c: Config, steps: seq<Step>, k: Key)
    requires Quiet(Run(c, START, steps), k)
    requires k in Run(c, START, steps).begun ==> k in Run(c, START, steps).closed
    ensures var s := Run(c, START, steps); k !in s.signal && k !in s.table && k !in s.inflight
  {
    Reachable(c, steps);
    assert LocalInv(c, k, Of(Run(c, START, steps), k));
  }

  /** With every thread idle and every channel empty, all three shared structures are empty. */
  lemma DrainedSystemIsEmpty(c: Config, steps: seq<Step>)
    requires var s := Run(c, START, steps);
      && s.jobs == map[] && s.signals == [] && s.receiver == Listening && s.injections == []
      && s.tasks == multiset{} && s.net == Idle && s.begun <= s.closed
    ensures var s := Run(c, START, steps); s.signal == map[] && s.table == {} && s.inflight == {}
  {
    var s := Run(c, START, steps);
    forall k: Key
      ensures k !in s.signal && k !in s.table && k !in s.inflight
    {
      NothingLeaks(c, steps, k);
    }
  }

  /** Closing one connection, from its first action to its last, changes nothing of any other's requests. */
  lemma ClosingLeavesOtherConnections(c: Config, s: Sys, step: Step, conn: nat, k: Key)
    requires LocalInv(c, k, Of(s, k)) && k.conn != conn
    requires
      || step == Close(conn)
      || (&& (s.net == ClosingSignals(conn) || (s.net.ClosingEntries? && s.net.conn == conn))
          && (step.Visit? || step.NetNext?))
    ensures Of(Apply(c, s, step), k) == Of(s, k)
  {
    StepMoves(c, s, step, k);
  }

  /** A closed connection's dispositions and in-flight paths are gone for good. */
  lemma ClosedConnectionStaysEmpty(c: Config, steps: seq<Step>, k: Key)
    requires var s := Run(c, START, steps); k.conn in s.gone && AttentionOf(s.net, k) == Elsewhere
    ensures var s := Run(c, START, steps); k !in s.signal && k !in s.inflight
  {
    Reachable(c, steps);
    assert LocalInv(c, k, Of(Run(c, START, steps), k));
  }
}
