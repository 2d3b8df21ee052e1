/**
 * Progress of the disposition protocol: every accepted request has a rank that no step of any thread
 * raises and that some enabled step always lowers, so it can be answered from every reachable state.
 */
module DispositionProgress {
  import opened Basics
  import opened Disposition
  import opened DispositionProofs

  // ---------- positions in a queue ----------

  /** How many entries of a queue leave it up to the first one for `k`; 0 when there is none. */
  function Ahead(keys: seq<Key>, k: Key): nat {
    if keys == [] then 0
    else if keys[0] == k then 1
    else
      var rest := Ahead(keys[1..], k);
      if rest == 0 then 0 else rest + 1
  }

  lemma {:induction false} AheadMember(keys: seq<Key>, k: Key)
    ensures Ahead(keys, k) > 0 <==> k in keys
    decreases |keys|
  {
    if keys == [] {
    } else {
      AheadMember(keys[1..], k);
      assert keys == [keys[0]] + keys[1..];
    }
  }

  /** Entries that join at the back never delay the ones already queued. */
  lemma {:induction false} AheadSnoc(keys: seq<Key>, last: Key, k: Key)
    requires k in keys || last != k
    ensures Ahead(keys + [last], k) == Ahead(keys, k)
    decreases |keys|
  {
    if keys == [] {
    } else {
      assert (keys + [last])[1..] == keys[1..] + [last];
      if keys[0] != k {
        AheadSnoc(keys[1..], last, k);
      }
    }
  }

  function Keys(signals: seq<(Key, State)>): seq<Key> {
    seq(|signals|, i requires 0 <= i < |signals| => signals[i].0)
  }

  function Letters(m: Mail): nat {
    m.ready + m.rejected + m.pending
  }

  lemma KeyHasMail(signals: seq<(Key, State)>, k: Key)
    requires k in Keys(signals)
    ensures Letters(MailOf(signals, k)) > 0
  {
    var i :| 0 <= i < |signals| && Keys(signals)[i] == k;
    var state := signals[i].1;
    assert signals[i] == (k, state) && (k, state) in multiset(signals);
    match state
    case Pending =>
    case Ready =>
    case Rejected =>
  }

  lemma LetterHasKey(signals: seq<(Key, State)>, k: Key, state: State)
    requires multiset(signals)[(k, state)] > 0
    ensures k in Keys(signals)
  {
    assert (k, state) in signals;
    var i :| 0 <= i < |signals| && signals[i] == (k, state);
    assert Keys(signals)[i] == k;
  }

  lemma KeysMail(signals: seq<(Key, State)>, k: Key)
    ensures k in Keys(signals) <==> Letters(MailOf(signals, k)) > 0
  {
    if k in Keys(signals) {
      KeyHasMail(signals, k);
    } else if multiset(signals)[(k, Ready)] > 0 {
      LetterHasKey(signals, k, Ready);
    } else if multiset(signals)[(k, Rejected)] > 0 {
      LetterHasKey(signals, k, Rejected);
    } else if multiset(signals)[(k, Pending)] > 0 {
      LetterHasKey(signals, k, Pending);
    }
  }

  // ---------- the rank of a request ----------

  /** What separates a request from its answer, most significant first. */
  datatype Rank = Rank(header: nat, channel: nat, stage: nat, position: nat)

  predicate Below(a: Rank, b: Rank) {
    || a.header < b.header
    || (a.header == b.header &&
        (|| a.channel < b.channel
         || (a.channel == b.channel &&
             (a.stage < b.stage || (a.stage == b.stage && a.position < b.position)))))
  }

  /** Actions left for the middleware worker. */
  function HeaderLeft(c: Config, k: Key, job: Option<Job>): nat {
    match job
    case None => 0
    case Some(Queued) => |c.chain(k)| + 5
    case Some(Running(done)) => if done <= |c.chain(k)| then |c.chain(k)| - done + 4 else 4
    case Some(Looked(_)) => 3
    case Some(Creating) => 2
    case Some(Announcing) => 1
  }

  function ChannelLeft(s: Sys, k: Key): nat {
    var ahead := Ahead(Keys(s.signals), k);
    if ahead == 0 then 0 else 2 * ahead + if s.receiver.Dropping? then 1 else 0
  }

  /** Actions left for the response workers once the signal arrived; before, an injection just circulates. */
  function StageLeft(l: Local): nat {
    if l.Due() > 0 then 0
    else if l.held.absent > 0 then if l.signal.Some? then 7 else 3
    else if l.held.retrying > 0 then 6
    else if l.held.queued > 0 then 5
    else if l.held.took > 0 then 4
    else if l.held.building > 0 then 3
    else if l.held.removing > 0 then 2
    else if l.held.handling + l.held.discarding > 0 then 1
    else 0
  }

  function RankOf(c: Config, s: Sys, k: Key): Rank {
    var l := Of(s, k);
    var stage := StageLeft(l);
    Rank(HeaderLeft(c, k, l.job), ChannelLeft(s, k), stage, if stage == 5 then Ahead(s.injections, k) else 0)
  }

  // ---------- what a move does to the rank ----------

  /** A worker's own action shortens the header stage. */
  lemma JobShortens(c: Config, s: Sys, stored: bool, k: Key)
    requires k in s.jobs && JobInv(c, k, s.jobs[k])
    ensures var move := JobMove(s, c, stored, k);
      HeaderLeft(c, k, if move.Advances? then Some(move.job) else None) < HeaderLeft(c, k, Some(s.jobs[k]))
  {
  }

  predicate ForWorkers(move: Move) {
    move.Removes? || move.Checks? || move.Requeues? || move.Builds? || move.Unlists? || move.Handles? || move.Empties?
  }

  /** Once the signal arrived, workers only move the injection towards its answer. */
  lemma WorkersAdvance(c: Config, k: Key, l: Local, move: Move)
    requires LocalInv(c, k, l) && Enabled(c, k, l, move) && l.past.accepted && l.Due() == 0 && ForWorkers(move)
    ensures StageLeft(Moved(c, k, l, move)) < StageLeft(l)
  {
  }

  /** Every other move leaves the stage alone, or lowers it. */
  lemma OthersDoNotDelay(c: Config, k: Key, l: Local, move: Move)
    requires LocalInv(c, k, l) && Enabled(c, k, l, move) && l.past.accepted && l.Due() == 0
    requires !ForWorkers(move) && !move.Takes? && !move.Advances? && !move.Sends? && !move.Arrives?
    ensures StageLeft(Moved(c, k, l, move)) <= StageLeft(l)
    ensures Moved(c, k, l, move).job == l.job
  {
  }

  // ---------- what a step does to the rank ----------

  ghost predicate InProgress(c: Config, s: Sys, k: Key) {
    LocalInv(c, k, Of(s, k)) && k in s.accepted
  }

  /** In `t` the request is closer to its answer than in `s`. */
  predicate Closer(c: Config, s: Sys, t: Sys, k: Key) {
    Below(RankOf(c, t, k), RankOf(c, s, k))
  }

  predicate NoFarther(c: Config, s: Sys, t: Sys, k: Key) {
    RankOf(c, t, k) == RankOf(c, s, k) || Closer(c, s, t, k)
  }

  lemma SignalAppended(s: Sys, k0: Key, state: State, k: Key)
    requires k != k0
    ensures ChannelLeft(SendSignal(s, k0, state), k) == ChannelLeft(s, k)
  {
    var t := SendSignal(s, k0, state);
    assert Keys(t.signals) == Keys(s.signals) + [k0];
    AheadSnoc(Keys(s.signals), k0, k);
  }

  lemma JobRank(c: Config, s: Sys, k0: Key, stored: bool, k: Key)
    requires InProgress(c, s, k) && k0 in s.jobs
    ensures k == k0 ==> Closer(c, s, JobStep(s, c, k0, stored), k)
    ensures k != k0 ==> RankOf(c, JobStep(s, c, k0, stored), k) == RankOf(c, s, k)
  {
    JobMoves(c, s, k0, stored, k);
    JobSteps(c, s, k0, stored);
    if k == k0 {
      JobShortens(c, s, stored, k);
    } else {
      var move := JobMove(s, c, stored, k0);
      if move.Sends? {
        SignalAppended(s, k0, move.state, k);
      }
    }
  }

  lemma DroppingRank(c: Config, s: Sys, k: Key)
    requires InProgress(c, s, k) && s.receiver.Dropping?
    ensures NoFarther(c, s, ReceiveStep(s), k)
    ensures ChannelLeft(s, k) > 0 ==> Closer(c, s, ReceiveStep(s), k)
  {
    DroppingMoves(c, s, k);
  }

  /** The first entry of a queue leaves it: everyone behind moves up by one. */
  lemma HeadLeaves(keys: seq<Key>, k: Key)
    requires keys != [] && (keys[0] == k ==> k !in keys[1..])
    ensures var (before, after) := (Ahead(keys, k), Ahead(keys[1..], k));
      if before == 0 then after == 0 else after == before - 1
  {
    AheadMember(keys[1..], k);
  }

  lemma KeysTail(signals: seq<(Key, State)>)
    requires signals != []
    ensures Keys(signals) != [] && Keys(signals)[0] == signals[0].0 && Keys(signals)[1..] == Keys(signals[1..])
  {
  }

  /** A request has one signal at most in the channel, so none is left behind the one received. */
  lemma OneSignal(signals: seq<(Key, State)>, k: Key)
    requires signals != [] && signals[0].0 == k
    requires Letters(MailOf(signals, k)) <= 1 && MailOf(signals, k).pending == 0
    ensures k !in Keys(signals[1..])
  {
    ReceivedMail(signals, k);
    KeysMail(signals[1..], k);
  }

  lemma ReceiveChannel(s: Sys, k: Key)
    requires s.receiver.Listening? && s.signals != []
    requires Letters(MailOf(s.signals, k)) <= 1 && MailOf(s.signals, k).pending == 0
    ensures var (before, after) := (ChannelLeft(s, k), ChannelLeft(ReceiveStep(s), k));
      after < before || after == before == 0
  {
    KeysTail(s.signals);
    if s.signals[0].0 == k {
      OneSignal(s.signals, k);
    }
    HeadLeaves(Keys(s.signals), k);
  }

  /** A step that lowers the channel, or leaves it at zero with the rest untouched, does not set back. */
  lemma ChannelRank(c: Config, s: Sys, t: Sys, k: Key)
    requires Of(t, k).job == Of(s, k).job
    requires ChannelLeft(t, k) < ChannelLeft(s, k) ||
      (&& ChannelLeft(t, k) == ChannelLeft(s, k) == 0
       && StageLeft(Of(t, k)) == StageLeft(Of(s, k)) && t.injections == s.injections)
    ensures NoFarther(c, s, t, k)
    ensures ChannelLeft(s, k) > 0 ==> Closer(c, s, t, k)
  {
  }

  lemma ReceiveLocal(c: Config, s: Sys, k: Key)
    requires InProgress(c, s, k) && s.receiver.Listening? && s.signals != []
    ensures Of(ReceiveStep(s), k).job == Of(s, k).job
    ensures ChannelLeft(s, k) == 0 ==> Of(ReceiveStep(s), k) == Of(s, k)
  {
    StepMoves(c, s, Receive, k);
    AheadMember(Keys(s.signals), k);
    assert Keys(s.signals)[0] == s.signals[0].0;
  }

  lemma ReceiveRank(c: Config, s: Sys, k: Key)
    requires InProgress(c, s, k) && s.receiver.Listening? && s.signals != []
    ensures NoFarther(c, s, ReceiveStep(s), k)
    ensures ChannelLeft(s, k) > 0 ==> Closer(c, s, ReceiveStep(s), k)
  {
    ReceiveLocal(c, s, k);
    ReceiveChannel(s, k);
    assert ReceiveStep(s).injections == s.injections;
    ChannelRank(c, s, ReceiveStep(s), k);
  }

  lemma TakeRank(c: Config, s: Sys, k: Key)
    requires InProgress(c, s, k) && s.injections != []
    ensures NoFarther(c, s, TakeStep(s), k)
    ensures StageLeft(Of(s, k)) == 5 ==> Closer(c, s, TakeStep(s), k)
  {
    TakeMoves(c, s, k);
    AheadMember(s.injections, k);
    AheadMember(s.injections[1..], k);
    assert multiset(s.injections)[k] > 0 <==> k in s.injections;
  }

  /** Steps that touch neither the job nor the channel are judged by stage and position. */
  lemma StageRank(c: Config, s: Sys, t: Sys, k: Key)
    requires Of(t, k).job == Of(s, k).job && t.signals == s.signals && t.receiver == s.receiver
    requires var (before, after) := (StageLeft(Of(s, k)), StageLeft(Of(t, k)));
      after < before || (after == before && (before == 5 ==> Ahead(t.injections, k) == Ahead(s.injections, k)))
    ensures NoFarther(c, s, t, k)
    ensures StageLeft(Of(t, k)) < StageLeft(Of(s, k)) ==> Closer(c, s, t, k)
  {
  }

  lemma TaskFrame(s: Sys, task: Task)
    ensures var t := TaskStep(s, task);
      && t.signals == s.signals && t.receiver == s.receiver
      && (t.injections == s.injections || (task.Retrying? && t.injections == s.injections + [task.k]))
  {
  }

  /** Nothing is staged while the signal is still due. */
  lemma WorkersWait(c: Config, k: Key, l: Local, move: Move)
    requires LocalInv(c, k, l) && Enabled(c, k, l, move) && l.Due() > 0 && (ForWorkers(move) || NetworkOnly(move))
    requires l.past.accepted
    ensures StageLeft(Moved(c, k, l, move)) == StageLeft(l) == 0
    ensures Moved(c, k, l, move).job == l.job
  {
  }

  lemma OwnTaskRank(c: Config, s: Sys, task: Task)
    requires InProgress(c, s, task.k) && task in s.tasks
    ensures NoFarther(c, s, TaskStep(s, task), task.k)
    ensures Of(s, task.k).Due() == 0 ==> Closer(c, s, TaskStep(s, task), task.k)
  {
    var k := task.k;
    TaskMoves(c, s, task, k);
    TaskFrame(s, task);
    if Of(s, k).Due() == 0 {
      WorkersAdvance(c, k, Of(s, k), TaskMove(task));
    } else {
      WorkersWait(c, k, Of(s, k), TaskMove(task));
    }
    StageRank(c, s, TaskStep(s, task), k);
  }

  lemma OtherTaskRank(c: Config, s: Sys, task: Task, k: Key)
    requires InProgress(c, s, k) && task in s.tasks && task.k != k
    ensures NoFarther(c, s, TaskStep(s, task), k)
  {
    TaskMoves(c, s, task, k);
    TaskFrame(s, task);
    AheadSnoc(s.injections, task.k, k);
    StageRank(c, s, TaskStep(s, task), k);
  }

  lemma TaskRank(c: Config, s: Sys, task: Task, k: Key)
    requires InProgress(c, s, k)
    ensures NoFarther(c, s, TaskStep(s, task), k)
  {
    if task !in s.tasks {
      assert TaskStep(s, task) == s;
    } else if task.k == k {
      OwnTaskRank(c, s, task);
    } else {
      OtherTaskRank(c, s, task, k);
    }
  }

  predicate NetworkOnly(move: Move) {
    !ForWorkers(move) && !move.Takes? && !move.Advances? && !move.Sends? && !move.Arrives? && !move.Accepted?
  }

  lemma NetworkFrame(c: Config, s: Sys, step: Step, k: Key)
    requires !step.JobNext? && !step.Receive? && !step.Take? && !step.TaskNext?
    ensures var t := Apply(c, s, step);
      && t.signals == s.signals && t.receiver == s.receiver
      && (t.injections == s.injections ||
          (step.Finished? && s.net == Idle && step.k in s.inflight && t.injections == s.injections + [step.k]))
  {
  }

  /** What the network thread can do to a request whose FIN was already accepted. */
  lemma NetworkMovesAreOnly(c: Config, s: Sys, step: Step, k: Key)
    requires InProgress(c, s, k) && !step.JobNext? && !step.Receive? && !step.Take? && !step.TaskNext?
    ensures NetworkOnly(MoveOf(c, s, step, k))
  {
  }

  lemma NetworkRank(c: Config, s: Sys, step: Step, k: Key)
    requires InProgress(c, s, k) && !step.JobNext? && !step.Receive? && !step.Take? && !step.TaskNext?
    ensures NoFarther(c, s, Apply(c, s, step), k)
  {
    var (l, t, move) := (Of(s, k), Apply(c, s, step), MoveOf(c, s, step, k));
    StepMoves(c, s, step, k);
    NetworkFrame(c, s, step, k);
    NetworkMovesAreOnly(c, s, step, k);
    if l.Due() == 0 {
      OthersDoNotDelay(c, k, l, move);
    } else {
      WorkersWait(c, k, l, move);
    }
    if t.injections != s.injections {
      AheadSnoc(s.injections, step.k, k);
    }
    StageRank(c, s, t, k);
  }

  /** No step of any thread, on any request, sets an accepted request back. */
  lemma NoStepSetsBack(c: Config, s: Sys, step: Step, k: Key)
    requires Inv(c, s) && k in s.accepted
    ensures NoFarther(c, s, Apply(c, s, step), k)
  {
    assert LocalInv(c, k, Of(s, k));
    match step
    case JobNext(k0, stored) =>
      if k0 in s.jobs {
        JobRank(c, s, k0, stored, k);
      }
    case Receive =>
      if s.receiver.Dropping? {
        DroppingRank(c, s, k);
      } else if s.signals != [] {
        ReceiveRank(c, s, k);
      }
    case Take =>
      if s.injections != [] {
        TakeRank(c, s, k);
      }
    case TaskNext(task) => TaskRank(c, s, task, k);
    case _ => NetworkRank(c, s, step, k);
  }

  // ---------- an answer is always within reach ----------

  /** The action that brings an accepted request closer to its answer. */
  function NextStep(s: Sys, k: Key): Step {
    if k in s.jobs then JobNext(k, true)
    else if Ahead(Keys(s.signals), k) > 0 then Receive
    else if Absent(k) in s.tasks then TaskNext(Absent(k))
    else if Retrying(k) in s.tasks then TaskNext(Retrying(k))
    else if Took(k) in s.tasks then TaskNext(Took(k))
    else if Building(k) in s.tasks then TaskNext(Building(k))
    else if Removing(k) in s.tasks then TaskNext(Removing(k))
    else if Handling(k) in s.tasks then TaskNext(Handling(k))
    else if Discarding(k) in s.tasks then TaskNext(Discarding(k))
    else Take
  }

  lemma DueMail(c: Config, k: Key, l: Local)
    requires LocalInv(c, k, l) && l.past.accepted && l.Due() > 0 && l.job.None?
    ensures Letters(l.mail) > 0
  {
  }

  lemma DueSignal(c: Config, s: Sys, k: Key)
    requires InProgress(c, s, k) && Of(s, k).Due() > 0 && k !in s.jobs
    ensures Ahead(Keys(s.signals), k) > 0 && s.signals != []
  {
    DueMail(c, k, Of(s, k));
    KeysMail(s.signals, k);
    AheadMember(Keys(s.signals), k);
  }

  lemma NoDueSignal(c: Config, s: Sys, k: Key)
    requires InProgress(c, s, k) && Of(s, k).Due() == 0
    ensures Ahead(Keys(s.signals), k) == 0 && k !in s.jobs
  {
    KeysMail(s.signals, k);
    AheadMember(Keys(s.signals), k);
  }

  /** While the signal is due, the worker that owes it brings it closer, or the receiver it waits for. */
  lemma JobAdvancesRank(c: Config, s: Sys, k: Key)
    requires InProgress(c, s, k) && k in s.jobs
    ensures Closer(c, s, Apply(c, s, JobNext(k, true)), k)
  {
    JobRank(c, s, k, true, k);
    assert Apply(c, s, JobNext(k, true)) == JobStep(s, c, k, true);
  }

  lemma ReceiveAdvances(c: Config, s: Sys, k: Key)
    requires InProgress(c, s, k) && Of(s, k).Due() > 0 && k !in s.jobs
    ensures Closer(c, s, Apply(c, s, Receive), k)
  {
    DueSignal(c, s, k);
    if s.receiver.Dropping? {
      DroppingRank(c, s, k);
    } else {
      ReceiveRank(c, s, k);
    }
  }

  lemma StagedInjection(c: Config, k: Key, l: Local)
    requires LocalInv(c, k, l) && l.past.accepted && l.Due() == 0 && l.answers.consumed + l.answers.dropped == 0
    ensures l.held.absent + l.held.retrying + l.held.took + l.Answering() == 0 ==>
      l.held.queued == 1 && StageLeft(l) == 5
  {
  }

  /** Once the signal arrived, the next step is the injection's own. */
  lemma TakeAdvances(c: Config, s: Sys, k: Key)
    requires InProgress(c, s, k) && Of(s, k).Due() == 0 && s.consumed[k] + s.dropped[k] == 0
    requires Holders(s.tasks, k) == 0
    ensures Closer(c, s, Apply(c, s, Take), k)
  {
    StagedInjection(c, k, Of(s, k));
    assert k in s.injections;
    TakeRank(c, s, k);
  }

  lemma TaskAdvances(c: Config, s: Sys, task: Task)
    requires InProgress(c, s, task.k) && Of(s, task.k).Due() == 0 && task in s.tasks
    ensures Closer(c, s, Apply(c, s, TaskNext(task)), task.k)
  {
    OwnTaskRank(c, s, task);
  }

  /** The steps that bring the answer closer. */
  predicate Helps(s: Sys, step: Step, k: Key) {
    if Of(s, k).Due() > 0 then if k in s.jobs then step == JobNext(k, true) else step == Receive
    else (step.TaskNext? && step.task in s.tasks && step.task.k == k) || (step == Take && Holders(s.tasks, k) == 0)
  }

  lemma NextStepHelps(c: Config, s: Sys, k: Key)
    requires InProgress(c, s, k)
    ensures Helps(s, NextStep(s, k), k)
  {
    if Of(s, k).Due() == 0 {
      NoDueSignal(c, s, k);
    } else if k !in s.jobs {
      DueSignal(c, s, k);
    }
  }

  lemma HelpAdvances(c: Config, s: Sys, step: Step, k: Key)
    requires InProgress(c, s, k) && s.consumed[k] + s.dropped[k] == 0 && Helps(s, step, k)
    ensures Closer(c, s, Apply(c, s, step), k)
  {
    if Of(s, k).Due() > 0 {
      if k in s.jobs { JobAdvancesRank(c, s, k); } else { ReceiveAdvances(c, s, k); }
    } else if step == Take {
      TakeAdvances(c, s, k);
    } else {
      TaskAdvances(c, s, step.task);
    }
  }

  /** The worker that owes the signal may still make the table entry. */
  predicate MayStillCreate(job: Option<Job>) {
    job.Some? && match job.value
      case Queued => true
      case Running(_) => true
      case Looked(present) => !present
      case Creating => true
      case Announcing => false
  }

  /**
   * What it takes for an accepted request to reach its handler: it did, a worker is on the way there, or it
   * passes, no cancel came, its injection waits, and its table entry is there or can still be made.
   */
  predicate HandlerAhead(c: Config, k: Key, l: Local) {
    || l.answers.handled > 0 || l.held.handling > 0 || l.held.removing > 0 || (l.held.building > 0 && l.table)
    || (Passes(c, k) && !l.past.cancelled && l.Waiting() > 0 && (l.table || MayStillCreate(l.job)))
  }

  predicate NotNetwork(move: Move) {
    || ForWorkers(move) || move.Takes?
    || move.Advances? || move.Sends? || move.Arrives? || move.Discarded? || move.Untouched?
  }

  lemma AheadByHeaders(c: Config, k: Key, l: Local, move: Move)
    requires LocalInv(c, k, l) && Enabled(c, k, l, move) && l.past.accepted
    requires NotNetwork(move) && !ForWorkers(move) && l.job.None?
    ensures var l' := Moved(c, k, l, move);
      && l'.past.accepted && l'.past.cancelled == l.past.cancelled
      && (HandlerAhead(c, k, l) ==> HandlerAhead(c, k, l'))
  {
  }

  lemma AheadByRegistering(c: Config, k: Key, l: Local, move: Move)
    requires LocalInv(c, k, l) && Enabled(c, k, l, move) && l.past.accepted
    requires move.Removes? || move.Checks? || move.Requeues?
    ensures var l' := Moved(c, k, l, move);
      && l'.past.accepted && l'.past.cancelled == l.past.cancelled
      && (HandlerAhead(c, k, l) ==> HandlerAhead(c, k, l'))
  {
    States(l.signal);
  }

  lemma AheadByAnswering(c: Config, k: Key, l: Local, move: Move)
    requires LocalInv(c, k, l) && Enabled(c, k, l, move) && l.past.accepted
    requires move.Builds? || move.Unlists? || move.Handles? || move.Empties?
    ensures var l' := Moved(c, k, l, move);
      && l'.past.accepted && l'.past.cancelled == l.past.cancelled
      && (HandlerAhead(c, k, l) ==> HandlerAhead(c, k, l'))
  {
  }

  /** A worker whose storing succeeds goes on to an entry in the table. */
  lemma AheadByJob(c: Config, s: Sys, k: Key)
    requires InProgress(c, s, k) && k in s.jobs
    ensures var (l, move) := (Of(s, k), JobMove(s, c, true, k)); Enabled(c, k, l, move)
    ensures var (l, l') := (Of(s, k), Moved(c, k, Of(s, k), JobMove(s, c, true, k)));
      && l'.past.accepted && l'.past.cancelled == l.past.cancelled
      && (HandlerAhead(c, k, l) ==> HandlerAhead(c, k, l'))
  {
    JobEnabled(c, s, true, k);
  }

  lemma NextMove(c: Config, s: Sys, k: Key)
    ensures NotNetwork(MoveOf(c, s, NextStep(s, k), k))
  {
  }

  lemma AheadMove(c: Config, k: Key, l: Local, move: Move)
    requires LocalInv(c, k, l) && Enabled(c, k, l, move) && l.past.accepted && NotNetwork(move) && l.job.None?
    ensures var l' := Moved(c, k, l, move);
      && l'.past.accepted && l'.past.cancelled == l.past.cancelled
      && (HandlerAhead(c, k, l) ==> HandlerAhead(c, k, l'))
  {
    if !ForWorkers(move) {
      AheadByHeaders(c, k, l, move);
    } else if move.Removes? || move.Checks? || move.Requeues? {
      AheadByRegistering(c, k, l, move);
    } else {
      AheadByAnswering(c, k, l, move);
    }
  }

  lemma NextStepKeeps(c: Config, s: Sys, k: Key)
    requires InProgress(c, s, k)
    ensures var (l, l') := (Of(s, k), Of(Apply(c, s, NextStep(s, k)), k));
      && l'.past.accepted && l'.past.cancelled == l.past.cancelled
      && (HandlerAhead(c, k, l) ==> HandlerAhead(c, k, l'))
  {
    var step := NextStep(s, k);
    StepMoves(c, s, step, k);
    if k in s.jobs {
      AheadByJob(c, s, k);
    } else {
      NextMove(c, s, k);
      AheadMove(c, k, Of(s, k), MoveOf(c, s, step, k));
    }
  }

  /**
   * From every reachable state an accepted request can still be answered, whatever else is in flight:
   * the returned schedule answers or drops it; it is answered unless a cancel came first, and it gets its
   * handler whenever that is still possible.
   */
  lemma {:induction false} EveryAcceptedRequestCanBeAnswered(c: Config, s: Sys, k: Key) returns (steps: seq<Step>)
    requires Inv(c, s) && k in s.accepted
    ensures var t := Run(c, s, steps);
      && t.consumed[k] + t.dropped[k] == 1
      && (k !in s.cancelled ==> t.consumed[k] == 1)
      && (HandlerAhead(c, k, Of(s, k)) ==> t.handled[k] == 1)
    decreases RankOf(c, s, k).header, RankOf(c, s, k).channel, RankOf(c, s, k).stage, RankOf(c, s, k).position
  {
    assert LocalInv(c, k, Of(s, k));
    if s.consumed[k] + s.dropped[k] > 0 {
      steps := [];
    } else {
      var step := NextStep(s, k);
      var t := Apply(c, s, step);
      NextStepHelps(c, s, k);
      HelpAdvances(c, s, step, k);
      NextStepKeeps(c, s, k);
      StepInv(c, s, step);
      var rest := EveryAcceptedRequestCanBeAnswered(c, t, k);
      steps := [step] + rest;
      assert steps[1..] == rest;
    }
  }

  // ---------- exactly when the handler is within reach ----------

  lemma NotAheadByNetwork(c: Config, k: Key, l: Local, move: Move)
    requires LocalInv(c, k, l) && Enabled(c, k, l, move) && l.past.accepted && ByNetwork(move)
    requires !HandlerAhead(c, k, l)
    ensures var l' := Moved(c, k, l, move); l'.past.accepted && !HandlerAhead(c, k, l')
  {
  }

  lemma NotAheadByHeaders(c: Config, k: Key, l: Local, move: Move)
    requires LocalInv(c, k, l) && Enabled(c, k, l, move) && l.past.accepted && ByHeaders(move) && !move.Advances?
    requires !HandlerAhead(c, k, l)
    ensures var l' := Moved(c, k, l, move); l'.past.accepted && !HandlerAhead(c, k, l')
  {
  }

  lemma NotAheadByWorkers(c: Config, k: Key, l: Local, move: Move)
    requires LocalInv(c, k, l) && Enabled(c, k, l, move) && l.past.accepted && ByWorkers(move)
    requires !HandlerAhead(c, k, l)
    ensures var l' := Moved(c, k, l, move); l'.past.accepted && !HandlerAhead(c, k, l')
  {
    States(l.signal);
  }

  lemma NotAheadByJob(c: Config, s: Sys, stored: bool, k: Key)
    requires InProgress(c, s, k) && k in s.jobs && !HandlerAhead(c, k, Of(s, k))
    ensures Enabled(c, k, Of(s, k), JobMove(s, c, stored, k))
    ensures var l' := Moved(c, k, Of(s, k), JobMove(s, c, stored, k)); l'.past.accepted && !HandlerAhead(c, k, l')
  {
    JobEnabled(c, s, stored, k);
  }

  lemma NotAheadStep(c: Config, s: Sys, step: Step, k: Key)
    requires InProgress(c, s, k) && !HandlerAhead(c, k, Of(s, k))
    ensures var t := Apply(c, s, step); k in t.accepted && !HandlerAhead(c, k, Of(t, k))
  {
    var (l, move) := (Of(s, k), MoveOf(c, s, step, k));
    StepMoves(c, s, step, k);
    if step.JobNext? && step.k == k && k in s.jobs {
      NotAheadByJob(c, s, step.stored, k);
    } else if ByNetwork(move) {
      NotAheadByNetwork(c, k, l, move);
    } else if ByHeaders(move) {
      NotAheadByHeaders(c, k, l, move);
    } else {
      NotAheadByWorkers(c, k, l, move);
    }
  }

  lemma {:induction false} NotAheadRun(c: Config, s: Sys, steps: seq<Step>, k: Key)
    requires Inv(c, s) && k in s.accepted && !HandlerAhead(c, k, Of(s, k))
    ensures Run(c, s, steps).handled[k] == 0
    decreases |steps|
  {
    if steps == [] {
    } else {
      assert LocalInv(c, k, Of(s, k));
      NotAheadStep(c, s, steps[0], k);
      StepInv(c, s, steps[0]);
      NotAheadRun(c, Apply(c, s, steps[0]), steps[1..], k);
    }
  }

  /**
   * Exactly when the handler of an accepted request can still run, in some continuation of the run: a condition
   * on its own state, lost for good once it fails.
   */
  lemma HandlerIsAheadExactly(c: Config, steps: seq<Step>, k: Key)
    requires k in Run(c, START, steps).accepted
    ensures var s := Run(c, START, steps);
      (exists more :: Run(c, s, more).handled[k] == 1) <==> HandlerAhead(c, k, Of(s, k))
  {
    var s := Run(c, START, steps);
    Reachable(c, steps);
    if HandlerAhead(c, k, Of(s, k)) {
      var more := EveryAcceptedRequestCanBeAnswered(c, s, k);
      assert Run(c, s, more).handled[k] == 1;
    } else {
      forall more
        ensures Run(c, s, more).handled[k] == 0
      {
        NotAheadRun(c, s, more, k);
      }
    }
  }

  // ---------- exactly which FIN is accepted ----------

  lemma {:induction false} RunConcat(c: Config, s: Sys, first: seq<Step>, second: seq<Step>)
    ensures Run(c, s, first + second) == Run(c, Run(c, s, first), second)
    decreases |first|
  {
    if first == [] {
      assert first + second == second;
    } else {
      assert (first + second)[1..] == first[1..] + second;
      RunConcat(c, Apply(c, s, first[0]), first[1..], second);
    }
  }

  /** The FIN of an open request is accepted exactly when its path was admitted, and is a cancel otherwise. */
  lemma FinIsAcceptedExactly(c: Config, steps: seq<Step>, k: Key)
    requires var s := Run(c, START, steps); s.net == Idle && k in s.begun && k !in s.closed
    ensures var t := Run(c, START, steps + [Finished(k)]);
      (k in t.accepted <==> c.admitted(k)) && (k in t.cancelled <==> !c.admitted(k))
  {
    var s := Run(c, START, steps);
    Reachable(c, steps);
    assert LocalInv(c, k, Of(s, k));
    RunConcat(c, START, steps, [Finished(k)]);
    assert [Finished(k)][1..] == [];
    assert Run(c, s, [Finished(k)]) == FinishedStep(s, k);
  }

  /**
   * With its path admitted, its route there and every middleware continuing, a request that sent data before
   * its FIN gets its handler in some continuation, whether or not the middleware worker can store an entry.
   */
  lemma DataSecuresTheHandler(c: Config, steps: seq<Step>, k: Key) returns (more: seq<Step>)
    requires c.admitted(k) && c.routed(k) && forall i | 0 <= i < |c.chain(k)| :: c.chain(k)[i] == Continue
    requires var s := Run(c, START, steps); s.net == Idle && k in s.begun && k !in s.closed
    ensures Run(c, START, steps + [Data(k), Finished(k)] + more).handled[k] == 1
  {
    var s := Run(c, START, steps);
    Reachable(c, steps);
    assert LocalInv(c, k, Of(s, k));
    var (two, t) := ([Data(k), Finished(k)], FinishedStep(DataStep(s, k), k));
    assert two[1..] == [Finished(k)] && [Finished(k)][1..] == [];
    assert Run(c, s, two) == t by {
      assert Run(c, DataStep(s, k), [Finished(k)]) == Run(c, t, []);
    }
    RunConcat(c, START, steps, two);
    RunInv(c, s, two);
    assert LocalInv(c, k, Of(t, k));
    assert k in t.table && k in t.accepted && k !in t.cancelled;
    more := EveryAcceptedRequestCanBeAnswered(c, t, k);
    RunConcat(c, START, steps + two, more);
  }
}
