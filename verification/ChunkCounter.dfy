/**
 * The occupancy counter of a chunk queue, at the granularity of its atomic operations: senders test and
 * then add, the receiver takes and then tests and subtracts. Sending itself refuses nothing: only a
 * producer that asks first whether the queue is occupied, as the chunker does, is held back.
 */
module ChunkCounter {
  import opened Basics

  /** Where a sender stands: the occupancy check, the limit test, the addition, the channel send, the way back. */
  datatype Sender = Free | Checked | Testing | Adding | Sending(incremented: bool) | Undoing | UndoSubtract

  /** Where the receiver stands after taking an item. */
  datatype Receiver = Empty | Testing | Subtracting

  /** The queue's limit, and for each producer whether it checks the occupancy before it sends. */
  datatype Setup = Setup(limit: nat, checks: seq<bool>)

  /**
   * `length` is the true queue length; one entry of `senders` per producer. `underflown`: a subtraction met a
   * counter of zero, so the machine word wrapped around; nothing is followed from there.
   */
  datatype Sys = Sys(
    length: nat, counter: nat, senders: seq<Sender>, receiver: Receiver, connected: bool, underflown: bool)

  datatype Step =
    | Check(i: nat)
    | Send(i: nat)
    | TestLimit(i: nat)
    | Add(i: nat)
    | Push(i: nat)
    | UndoTest(i: nat)
    | Undo(i: nat)
    | Take
    | TestPositive
    | Subtract
    | Disconnect

  function At(s: Sys, i: nat, next: Sender): Sys
    requires i < |s.senders|
  {
    s.(senders := s.senders[i := next])
  }

  function Less(s: Sys): Sys {
    if s.counter == 0 then s.(underflown := true) else s.(counter := s.counter - 1)
  }

  /** What producer `i` does; one that checks sends only after it found the queue unoccupied. */
  function Produce(s: Sys, q: Setup, step: Step, i: nat): Sys
    requires i < |s.senders| && i < |q.checks|
  {
    var at := s.senders[i];
    match step
    case Check(_) => if q.checks[i] && at == Free && s.counter < q.limit then At(s, i, Checked) else s
    case Send(_) => if at == (if q.checks[i] then Checked else Free) then At(s, i, Sender.Testing) else s
    case TestLimit(_) =>
      if at == Sender.Testing then At(s, i, if s.counter == q.limit then Sending(false) else Adding) else s
    case Add(_) => if at == Adding then At(s, i, Sending(true)).(counter := s.counter + 1) else s
    case Push(_) =>
      if !at.Sending? then s
      else if s.connected then At(s, i, Free).(length := s.length + 1)
      else At(s, i, if at.incremented then Undoing else Free)
    case UndoTest(_) => if at == Undoing then At(s, i, if s.counter > 0 then UndoSubtract else Free) else s
    case Undo(_) => if at == UndoSubtract then Less(At(s, i, Free)) else s
    case _ => s
  }

  /** The receiver, and the removal of the queue, which waits for the receiver and discards the items. */
  function Consume(s: Sys, step: Step): Sys {
    match step
    case Take =>
      if s.receiver == Empty && s.length > 0 then s.(length := s.length - 1, receiver := Receiver.Testing) else s
    case TestPositive =>
      if s.receiver == Receiver.Testing then s.(receiver := if s.counter > 0 then Subtracting else Empty) else s
    case Subtract => if s.receiver == Subtracting then Less(s).(receiver := Empty) else s
    case Disconnect => if s.receiver == Empty then s.(connected := false, length := 0) else s
    case _ => s
  }

  predicate ByReceiver(step: Step) {
    step.Take? || step.TestPositive? || step.Subtract? || step.Disconnect?
  }

  function Apply(s: Sys, q: Setup, step: Step): Sys {
    if s.underflown then s
    else if ByReceiver(step) then Consume(s, step)
    else if step.i < |s.senders| && step.i < |q.checks| then Produce(s, q, step, step.i)
    else s
  }

  function Run(s: Sys, q: Setup, steps: seq<Step>): Sys
    decreases |steps|
  {
    if steps == [] then s else Run(Apply(s, q, steps[0]), q, steps[1..])
  }

  function Start(q: Setup): Sys {
    Sys(0, 0, seq(|q.checks|, i => Free), Empty, true, false)
  }

  lemma {:induction false} RunConcat(s: Sys, q: Setup, first: seq<Step>, second: seq<Step>)
    ensures Run(s, q, first + second) == Run(Run(s, q, first), q, second)
    decreases |first|
  {
    if first == [] {
      assert first + second == second;
    } else {
      assert (first + second)[1..] == first[1..] + second;
      RunConcat(Apply(s, q, first[0]), q, first[1..], second);
    }
  }

  predicate AllCheck(q: Setup) {
    forall i | 0 <= i < |q.checks| :: q.checks[i]
  }

  // ---------- a sole producer ----------

  function Owed(sender: Sender): nat {
    if sender == Sending(true) || sender == Undoing || sender == UndoSubtract then 1 else 0
  }

  function Taken(receiver: Receiver): nat {
    if receiver == Empty then 0 else 1
  }

  /**
   * With the chunker as the only producer the counter is the queue length plus what is under way on either
   * side, and the limit is never hit between the test and the addition.
   */
  predicate SoleInv(s: Sys, q: Setup) {
    && |s.senders| == 1 && s.length + Owed(s.senders[0]) + Taken(s.receiver) <= s.counter <= q.limit
    && (s.connected ==> s.counter == s.length + Owed(s.senders[0]) + Taken(s.receiver))
    && s.senders[0] != Sending(false) && !s.underflown
    && (s.senders[0] in {Checked, Sender.Testing, Adding} ==> s.counter < q.limit)
    && (!s.connected ==> s.length == 0 && s.receiver == Empty)
    && (s.connected ==> s.senders[0] != Undoing && s.senders[0] != UndoSubtract)
  }

  lemma SoleStep(s: Sys, q: Setup, step: Step)
    requires SoleInv(s, q) && q.checks == [true]
    ensures SoleInv(Apply(s, q, step), q)
  {
  }

  lemma {:induction false} SoleRun(s: Sys, q: Setup, steps: seq<Step>)
    requires SoleInv(s, q) && q.checks == [true]
    ensures SoleInv(Run(s, q, steps), q)
    decreases |steps|
  {
    if steps == [] {
    } else {
      SoleStep(s, q, steps[0]);
      SoleRun(Apply(s, q, steps[0]), q, steps[1..]);
    }
  }

  /** In every interleaving with the consumer: queue length at most the counter, counter at most the limit. */
  lemma SoleProducerBound(limit: nat, steps: seq<Step>)
    ensures var q := Setup(limit, [true]); var s := Run(Start(q), q, steps);
      s.length <= s.counter <= limit && !s.underflown
  {
    var q := Setup(limit, [true]);
    SoleRun(Start(q), q, steps);
  }

  // ---------- the counter of several checking producers ----------

  function InFlight(senders: seq<Sender>): nat {
    if senders == [] then 0
    else (if senders[0] in {Checked, Sender.Testing, Adding} then 1 else 0) + InFlight(senders[1..])
  }

  lemma {:induction false} InFlightUpdate(senders: seq<Sender>, i: nat, next: Sender)
    requires i < |senders|
    ensures InFlight(senders[i := next]) + InFlight([senders[i]]) == InFlight(senders) + InFlight([next])
    ensures InFlight(senders[i := next]) <= |senders|
    decreases |senders|
  {
    var after := senders[i := next];
    assert InFlight([next]) <= 1 && InFlight([senders[i]]) <= 1;
    if i == 0 {
      assert after[1..] == senders[1..];
    } else {
      assert after[1..] == senders[1..][i - 1 := next];
      InFlightUpdate(senders[1..], i - 1, next);
    }
    AtMostAll(after);
  }

  lemma {:induction false} AtMostAll(senders: seq<Sender>)
    ensures InFlight(senders) <= |senders|
    decreases |senders|
  {
    if senders == [] {
    } else {
      AtMostAll(senders[1..]);
    }
  }

  /** Each producer beyond the first can push the counter at most one past the limit. */
  predicate CounterInv(s: Sys, q: Setup) {
    && |s.senders| == |q.checks|
    && (s.counter + InFlight(s.senders) <= q.limit + |s.senders| - 1 || s.counter + InFlight(s.senders) <= q.limit)
  }

  lemma CounterStep(s: Sys, q: Setup, step: Step)
    requires CounterInv(s, q) && AllCheck(q)
    ensures CounterInv(Apply(s, q, step), q)
  {
    var t := Apply(s, q, step);
    if t.senders != s.senders {
      var i := step.i;
      InFlightUpdate(s.senders, i, t.senders[i]);
      assert t.senders == s.senders[i := t.senders[i]];
    }
  }

  lemma {:induction false} CounterRun(s: Sys, q: Setup, steps: seq<Step>)
    requires CounterInv(s, q) && AllCheck(q)
    ensures CounterInv(Run(s, q, steps), q)
    decreases |steps|
  {
    if steps == [] {
    } else {
      CounterStep(s, q, steps[0]);
      CounterRun(Apply(s, q, steps[0]), q, steps[1..]);
    }
  }

  /** However many producers there are, if all check, the counter exceeds its limit by fewer than their number. */
  lemma CheckingOvershoot(q: Setup, steps: seq<Step>)
    requires AllCheck(q) && |q.checks| > 0
    ensures Run(Start(q), q, steps).counter <= q.limit + |q.checks| - 1
  {
    NoneInFlight(|q.checks|);
    CounterRun(Start(q), q, steps);
  }

  lemma {:induction false} NoneInFlight(producers: nat)
    ensures InFlight(seq(producers, i => Free)) == 0
    decreases producers
  {
    var senders := seq(producers, i => Free);
    if producers == 0 {
    } else {
      NoneInFlight(producers - 1);
      assert senders[1..] == seq(producers - 1, i => Free);
    }
  }

  // ---------- a producer that never adds past the limit ----------

  /** One producer, checking or not: nothing comes between its test and its addition but subtractions. */
  predicate LoneInv(s: Sys, q: Setup) {
    && |s.senders| == |q.checks| <= 1 && s.counter <= q.limit
    && (|s.senders| == 1 && s.senders[0] == Adding ==> s.counter < q.limit)
  }

  lemma {:induction false} LoneRun(s: Sys, q: Setup, steps: seq<Step>)
    requires LoneInv(s, q)
    ensures LoneInv(Run(s, q, steps), q)
    decreases |steps|
  {
    if steps == [] {
    } else {
      LoneRun(Apply(s, q, steps[0]), q, steps[1..]);
    }
  }

  /** A limit of zero is always reached: nobody adds and nobody takes back. */
  predicate ZeroInv(s: Sys, q: Setup) {
    && q.limit == s.counter == 0 && !s.underflown && s.receiver != Subtracting && |s.senders| == |q.checks|
    && (forall i | 0 <= i < |s.senders| ::
          s.senders[i] in (if q.checks[i] then {Free} else {Free, Sender.Testing, Sending(false)}))
  }

  lemma {:induction false} ZeroRun(s: Sys, q: Setup, steps: seq<Step>)
    requires ZeroInv(s, q)
    ensures ZeroInv(Run(s, q, steps), q)
    ensures AllCheck(q) && s.length == 0 ==> Run(s, q, steps).length == 0
    decreases |steps|
  {
    if steps == [] {
    } else {
      ZeroRun(Apply(s, q, steps[0]), q, steps[1..]);
    }
  }

  // ---------- runs that break the bounds ----------

  /** All threads rest; the queue holds `length` items and the counter says `counter`. */
  function Resting(q: Setup, length: nat, counter: nat): Sys {
    Start(q).(length := length, counter := counter)
  }

  /** Producer `i` starts to send, asking first if it is one that checks. */
  function Begin(q: Setup, i: nat): seq<Step>
    requires i < |q.checks|
  {
    if q.checks[i] then [Check(i), Send(i)] else [Send(i)]
  }

  lemma Begun(s: Sys, q: Setup, i: nat)
    requires i < |q.checks| == |s.senders| && !s.underflown && s.senders[i] == Free
    requires q.checks[i] ==> s.counter < q.limit
    ensures Run(s, q, Begin(q, i)) == At(s, i, Sender.Testing)
  {
    var t := if q.checks[i] then At(s, i, Checked) else s;
    RunOne(t, q, Send(i));
    if q.checks[i] {
      RunTwo(s, q, Check(i), Send(i));
    }
  }

  lemma RunOne(s: Sys, q: Setup, a: Step)
    ensures Run(s, q, [a]) == Apply(s, q, a)
  {
    assert [a][1..] == [];
    assert Run(Apply(s, q, a), q, []) == Apply(s, q, a);
  }

  lemma RunTwo(s: Sys, q: Setup, a: Step, b: Step)
    ensures Run(s, q, [a, b]) == Apply(Apply(s, q, a), q, b)
  {
    assert [a, b][1..] == [b];
    RunOne(Apply(s, q, a), q, b);
  }

  lemma RunThree(s: Sys, q: Setup, a: Step, b: Step, c: Step)
    ensures Run(s, q, [a, b, c]) == Apply(Apply(Apply(s, q, a), q, b), q, c)
  {
    assert [a, b, c][1..] == [b, c];
    RunTwo(Apply(s, q, a), q, b, c);
  }

  /** What a send adds to the counter. */
  function Counted(q: Setup, counter: nat): nat {
    if counter == q.limit then counter else counter + 1
  }

  function Finish(q: Setup, i: nat, counter: nat): seq<Step> {
    if counter == q.limit then [TestLimit(i), Push(i)] else [TestLimit(i), Add(i), Push(i)]
  }

  lemma Finished(s: Sys, q: Setup, i: nat)
    requires i < |q.checks| == |s.senders| && !s.underflown && s.connected && s.senders[i] == Sender.Testing
    ensures Run(s, q, Finish(q, i, s.counter))
      == At(s, i, Free).(length := s.length + 1, counter := Counted(q, s.counter))
  {
    if s.counter == q.limit {
      RunTwo(s, q, TestLimit(i), Push(i));
    } else {
      RunThree(s, q, TestLimit(i), Add(i), Push(i));
    }
  }

  /** One undisturbed send: the item is queued, and counted unless the counter is exactly at the limit. */
  lemma Sends(q: Setup, i: nat, length: nat, counter: nat) returns (steps: seq<Step>)
    requires i < |q.checks| && (q.checks[i] ==> counter < q.limit)
    ensures Run(Resting(q, length, counter), q, steps) == Resting(q, length + 1, Counted(q, counter))
  {
    var s := Resting(q, length, counter);
    Begun(s, q, i);
    Finished(At(s, i, Sender.Testing), q, i);
    RunConcat(s, q, Begin(q, i), Finish(q, i, counter));
    steps := Begin(q, i) + Finish(q, i, counter);
    assert Run(s, q, steps).senders == s.senders;
  }

  /** Sends in a row fill the queue up to the limit with an exact counter. */
  lemma {:induction false} FillUp(q: Setup, i: nat, n: nat) returns (steps: seq<Step>)
    requires i < |q.checks| && n <= q.limit
    ensures Run(Start(q), q, steps) == Resting(q, n, n)
  {
    if n == 0 {
      steps := [];
    } else {
      var before := FillUp(q, i, n - 1);
      var more := Sends(q, i, n - 1, n - 1);
      RunConcat(Start(q), q, before, more);
      steps := before + more;
    }
  }

  /** A producer that does not check fills the queue without end while the counter stays at its limit. */
  lemma {:induction false} Flood(q: Setup, i: nat, n: nat) returns (steps: seq<Step>)
    requires i < |q.checks| && !q.checks[i]
    ensures Run(Start(q), q, steps) == Resting(q, n, Min(n, q.limit))
  {
    if n <= q.limit {
      steps := FillUp(q, i, n);
    } else {
      var before := Flood(q, i, n - 1);
      var more := Sends(q, i, n - 1, q.limit);
      RunConcat(Start(q), q, before, more);
      steps := before + more;
    }
  }

  /** Two senders before their additions: the counter was read by both and changed by neither. */
  function BothTested(q: Setup, i: nat, j: nat, length: nat, counter: nat): Sys
    requires i < |q.checks| && j < |q.checks|
  {
    At(At(Resting(q, length, counter), i, Adding), j, Adding)
  }

  lemma TestTogether(q: Setup, i: nat, j: nat, length: nat, counter: nat) returns (steps: seq<Step>)
    requires i < |q.checks| && j < |q.checks| && i != j && counter < q.limit
    ensures Run(Resting(q, length, counter), q, steps) == BothTested(q, i, j, length, counter)
  {
    var s := Resting(q, length, counter);
    var t := At(s, i, Sender.Testing);
    var u := At(t, j, Sender.Testing);
    Begun(s, q, i);
    Begun(t, q, j);
    RunTwo(u, q, TestLimit(i), TestLimit(j));
    RunConcat(s, q, Begin(q, i), Begin(q, j));
    RunConcat(s, q, Begin(q, i) + Begin(q, j), [TestLimit(i), TestLimit(j)]);
    steps := Begin(q, i) + Begin(q, j) + [TestLimit(i), TestLimit(j)];
    assert Run(s, q, steps).senders == BothTested(q, i, j, length, counter).senders;
  }

  /** Both then add and send. */
  lemma BothAdd(q: Setup, i: nat, j: nat, length: nat, counter: nat) returns (steps: seq<Step>)
    requires i < |q.checks| && j < |q.checks| && i != j && counter < q.limit
    ensures Run(Resting(q, length, counter), q, steps) == Resting(q, length + 2, counter + 2)
  {
    var (s, t) := (Resting(q, length, counter), BothTested(q, i, j, length, counter));
    var before := TestTogether(q, i, j, length, counter);
    RunTwo(t, q, Add(i), Push(i));
    var u := Run(t, q, [Add(i), Push(i)]);
    RunTwo(u, q, Add(j), Push(j));
    RunConcat(s, q, before, [Add(i), Push(i)]);
    RunConcat(s, q, before + [Add(i), Push(i)], [Add(j), Push(j)]);
    steps := before + [Add(i), Push(i)] + [Add(j), Push(j)];
    assert Run(s, q, steps).senders == s.senders;
  }

  lemma PastLimit(q: Setup, i: nat, j: nat) returns (steps: seq<Step>)
    requires i < |q.checks| && j < |q.checks| && i != j && q.limit > 0
    ensures Run(Start(q), q, steps) == Resting(q, q.limit + 1, q.limit + 1)
  {
    var before := FillUp(q, i, q.limit - 1);
    var more := BothAdd(q, i, j, q.limit - 1, q.limit - 1);
    RunConcat(Start(q), q, before, more);
    steps := before + more;
  }

  /**
   * The limit test is for equality: once two producers carried the counter past the limit, a third send of
   * one that does not check, and every later one, adds to it.
   */
  lemma {:induction false} Outgrow(q: Setup, i: nat, j: nat, n: nat) returns (steps: seq<Step>)
    requires i < |q.checks| && j < |q.checks| && i != j && !q.checks[i] && q.limit > 0
    ensures Run(Start(q), q, steps) == Resting(q, q.limit + 1 + n, q.limit + 1 + n)
  {
    if n == 0 {
      steps := PastLimit(q, i, j);
    } else {
      var before := Outgrow(q, i, j, n - 1);
      var more := Sends(q, i, q.limit + n, q.limit + n);
      RunConcat(Start(q), q, before, more);
      steps := before + more;
    }
  }

  // ---------- two checking producers ----------

  /** Both find the queue unoccupied, the first is counted, the second finds the limit reached and is not. */
  lemma OneUncounted(q: Setup, i: nat, j: nat, length: nat) returns (steps: seq<Step>)
    requires i < |q.checks| && j < |q.checks| && i != j && q.limit > 0
    ensures Run(Resting(q, length, q.limit - 1), q, steps) == Resting(q, length + 2, q.limit)
  {
    var s := Resting(q, length, q.limit - 1);
    var t := At(s, i, Sender.Testing);
    var u := At(t, j, Sender.Testing);
    var (first, second) := (Finish(q, i, q.limit - 1), Finish(q, j, q.limit));
    Begun(s, q, i);
    Begun(t, q, j);
    Finished(u, q, i);
    var v := At(u, i, Free).(length := length + 1, counter := q.limit);
    Finished(v, q, j);
    RunConcat(s, q, Begin(q, i), Begin(q, j));
    RunConcat(s, q, Begin(q, i) + Begin(q, j), first);
    RunConcat(s, q, Begin(q, i) + Begin(q, j) + first, second);
    steps := Begin(q, i) + Begin(q, j) + first + second;
    assert Run(s, q, steps).senders == s.senders;
  }

  const CONSUME: seq<Step> := [Take, TestPositive, Subtract]

  lemma Consumed(q: Setup, length: nat, counter: nat)
    requires length > 0 && counter > 0
    ensures Run(Resting(q, length, counter), q, CONSUME) == Resting(q, length - 1, counter - 1)
  {
    RunThree(Resting(q, length, counter), q, Take, TestPositive, Subtract);
  }

  /** A race and one consumed item leave the counter where it was and one more item in the queue. */
  lemma Raced(q: Setup, length: nat) returns (steps: seq<Step>)
    requires |q.checks| >= 2 && q.limit > 0
    ensures Run(Resting(q, length, q.limit - 1), q, steps) == Resting(q, length + 1, q.limit - 1)
  {
    var race := OneUncounted(q, 0, 1, length);
    Consumed(q, length + 2, q.limit);
    RunConcat(Resting(q, length, q.limit - 1), q, race, CONSUME);
    steps := race + CONSUME;
  }

  lemma {:induction false} Grow(q: Setup, n: nat) returns (steps: seq<Step>)
    requires |q.checks| >= 2 && q.limit > 0
    ensures Run(Start(q), q, steps) == Resting(q, q.limit - 1 + n, q.limit - 1)
  {
    if n == 0 {
      steps := FillUp(q, 0, q.limit - 1);
    } else {
      var before := Grow(q, n - 1);
      var more := Raced(q, q.limit - 1 + n - 1);
      RunConcat(Start(q), q, before, more);
      steps := before + more;
    }
  }

  // ---------- the exact conditions ----------

  /**
   * The queue stays within its limit in every run exactly when every producer checks and they do not race:
   * at most one of them, or a limit of zero, which admits nothing.
   */
  lemma QueueBoundedExactly(q: Setup)
    ensures (forall steps :: Run(Start(q), q, steps).length <= q.limit)
      <==> AllCheck(q) && (|q.checks| <= 1 || q.limit == 0)
  {
    if !AllCheck(q) {
      var i :| 0 <= i < |q.checks| && !q.checks[i];
      var steps := Flood(q, i, q.limit + 1);
      assert Run(Start(q), q, steps).length > q.limit;
    } else if |q.checks| >= 2 && q.limit > 0 {
      var steps := Grow(q, 2);
      assert Run(Start(q), q, steps).length > q.limit;
    } else {
      forall steps
        ensures Run(Start(q), q, steps).length <= q.limit
      {
        if q.limit == 0 {
          ZeroRun(Start(q), q, steps);
        } else if |q.checks| == 1 {
          assert q == Setup(q.limit, [true]);
          SoleProducerBound(q.limit, steps);
        } else {
          NobodySends(Start(q), q, steps);
        }
      }
    }
  }

  lemma {:induction false} NobodySends(s: Sys, q: Setup, steps: seq<Step>)
    requires q.checks == [] && s.length == 0
    ensures Run(s, q, steps).length == 0
    decreases |steps|
  {
    if steps == [] {
    } else {
      NobodySends(Apply(s, q, steps[0]), q, steps[1..]);
    }
  }

  ghost predicate CounterWithin(q: Setup, bound: nat) {
    forall steps :: Run(Start(q), q, steps).counter <= bound
  }

  /**
   * Some bound holds for the counter in every run exactly when every producer checks, or there is at most
   * one, or the limit is zero.
   */
  lemma CounterBoundedExactly(q: Setup)
    ensures (exists bound :: CounterWithin(q, bound)) <==> AllCheck(q) || |q.checks| <= 1 || q.limit == 0
  {
    if q.limit == 0 || |q.checks| <= 1 {
      forall steps
        ensures Run(Start(q), q, steps).counter <= q.limit
      {
        if q.limit == 0 {
          ZeroRun(Start(q), q, steps);
        } else {
          LoneRun(Start(q), q, steps);
        }
      }
      assert CounterWithin(q, q.limit);
    } else if AllCheck(q) {
      forall steps
        ensures Run(Start(q), q, steps).counter <= q.limit + |q.checks| - 1
      {
        CheckingOvershoot(q, steps);
      }
      assert CounterWithin(q, q.limit + |q.checks| - 1);
    } else {
      var i :| 0 <= i < |q.checks| && !q.checks[i];
      forall bound
        ensures !CounterWithin(q, bound)
      {
        var steps := Outgrow(q, i, if i == 0 then 1 else 0, bound);
        assert Run(Start(q), q, steps).counter > bound;
      }
    }
  }

  // ---------- the counter never wraps while the queue is there ----------

  predicate Undoes(sender: Sender) {
    sender == Undoing || sender == UndoSubtract
  }

  /** Only the receiver subtracts on a connected queue, and it tests first. */
  predicate WordInv(s: Sys) {
    && (s.connected ==> !s.underflown && forall i | 0 <= i < |s.senders| :: !Undoes(s.senders[i]))
    && (s.receiver == Subtracting ==> s.counter > 0)
    && (!s.connected ==> s.receiver == Empty && s.length == 0)
  }

  lemma {:induction false} WordRun(s: Sys, q: Setup, steps: seq<Step>)
    requires WordInv(s)
    ensures WordInv(Run(s, q, steps))
    decreases |steps|
  {
    if steps == [] {
    } else {
      WordRun(Apply(s, q, steps[0]), q, steps[1..]);
    }
  }

  /** Whoever sends, checking or not: as long as the queue is there no subtraction meets a counter of zero. */
  lemma ConnectedNeverWraps(q: Setup, steps: seq<Step>)
    ensures Run(Start(q), q, steps).connected ==> !Run(Start(q), q, steps).underflown
  {
    WordRun(Start(q), q, steps);
  }

  /** A lone sender takes back only what it added. */
  predicate LoneWordInv(s: Sys) {
    && WordInv(s) && |s.senders| <= 1 && !s.underflown
    && (|s.senders| == 1 && s.senders[0] == UndoSubtract ==> s.counter > 0)
  }

  lemma {:induction false} LoneWordRun(s: Sys, q: Setup, steps: seq<Step>)
    requires LoneWordInv(s)
    ensures LoneWordInv(Run(s, q, steps))
    decreases |steps|
  {
    if steps == [] {
    } else {
      LoneWordRun(Apply(s, q, steps[0]), q, steps[1..]);
    }
  }

  lemma {:induction false} Drain(q: Setup, length: nat, counter: nat) returns (steps: seq<Step>)
    ensures Run(Resting(q, length + counter, counter), q, steps) == Resting(q, length, 0)
    decreases counter
  {
    if counter == 0 {
      steps := [];
    } else {
      Consumed(q, length + counter, counter);
      var more := Drain(q, length, counter - 1);
      RunConcat(Resting(q, length + counter, counter), q, CONSUME, more);
      steps := CONSUME + more;
    }
  }

  /** Both senders have added; an item nobody counted is consumed at their expense. */
  function BothOwed(q: Setup, counter: nat, at: Sender): Sys
    requires |q.checks| >= 2
  {
    At(At(Resting(q, 0, counter), 0, at), 1, at)
  }

  lemma AddTogether(q: Setup)
    requires |q.checks| >= 2
    ensures Run(BothTested(q, 0, 1, 1, 0), q, [Add(0), Add(1)]) == BothOwed(q, 2, Sending(true)).(length := 1)
  {
    var (s, t) := (BothTested(q, 0, 1, 1, 0), BothOwed(q, 2, Sending(true)).(length := 1));
    RunTwo(s, q, Add(0), Add(1));
    assert Run(s, q, [Add(0), Add(1)]).senders == t.senders;
  }

  lemma TakenFromThem(q: Setup)
    requires |q.checks| >= 2
    ensures Run(BothOwed(q, 2, Sending(true)).(length := 1), q, CONSUME) == BothOwed(q, 1, Sending(true))
  {
    RunThree(BothOwed(q, 2, Sending(true)).(length := 1), q, Take, TestPositive, Subtract);
  }

  lemma OneForTwo(q: Setup) returns (steps: seq<Step>)
    requires |q.checks| >= 2 && q.limit > 0
    ensures Run(Resting(q, 1, 0), q, steps) == BothOwed(q, 1, Sending(true))
  {
    var (s, t) := (Resting(q, 1, 0), BothTested(q, 0, 1, 1, 0));
    var before := TestTogether(q, 0, 1, 1, 0);
    AddTogether(q);
    TakenFromThem(q);
    RunConcat(s, q, before, [Add(0), Add(1)]);
    RunConcat(s, q, before + [Add(0), Add(1)], CONSUME);
    steps := before + [Add(0), Add(1)] + CONSUME;
  }

  const GONE: seq<Step> := [Disconnect, Push(0), Push(1)]
  const UNDO: seq<Step> := [UndoTest(0), UndoTest(1)] + [Undo(0), Undo(1)]

  /** The queue is removed, both sends fail, and both take back an addition of which one is left. */
  lemma BothUndo(q: Setup)
    requires |q.checks| >= 2
    ensures Run(BothOwed(q, 1, Sending(true)), q, GONE + UNDO).underflown
  {
    var s := BothOwed(q, 1, Sending(true));
    var t := BothOwed(q, 1, Undoing).(connected := false);
    var u := BothOwed(q, 1, UndoSubtract).(connected := false);
    RunThree(s, q, Disconnect, Push(0), Push(1));
    assert Run(s, q, GONE) == t;
    RunTwo(t, q, UndoTest(0), UndoTest(1));
    assert Run(t, q, [UndoTest(0), UndoTest(1)]) == u;
    RunTwo(u, q, Undo(0), Undo(1));
    RunConcat(s, q, GONE, UNDO);
    RunConcat(t, q, [UndoTest(0), UndoTest(1)], [Undo(0), Undo(1)]);
  }

  lemma Wraps(q: Setup) returns (steps: seq<Step>)
    requires |q.checks| >= 2 && q.limit > 0
    ensures Run(Start(q), q, steps).underflown
  {
    var a := Grow(q, 1);
    var b := Drain(q, 1, q.limit - 1);
    var c := OneForTwo(q);
    BothUndo(q);
    RunConcat(Start(q), q, a, b);
    RunConcat(Start(q), q, a + b, c);
    RunConcat(Start(q), q, a + b + c, GONE + UNDO);
    steps := a + b + c + (GONE + UNDO);
  }

  /** On a removed queue the counter can wrap around exactly when two producers share a limit above zero. */
  lemma WrapsExactly(q: Setup)
    ensures (exists steps :: Run(Start(q), q, steps).underflown) <==> |q.checks| >= 2 && q.limit > 0
  {
    if |q.checks| >= 2 && q.limit > 0 {
      var steps := Wraps(q);
    } else {
      forall steps
        ensures !Run(Start(q), q, steps).underflown
      {
        if q.limit == 0 {
          ZeroRun(Start(q), q, steps);
        } else {
          LoneWordRun(Start(q), q, steps);
        }
      }
    }
  }

  // ---------- the failing runs ----------

  /** The failing queue: one application that multicasts to one blocked downstream. */
  lemma UncheckedSenderExample() returns (steps: seq<Step>)
    ensures var q := Setup(150, [false]);
      Run(Start(q), q, steps).length == 151 && Run(Start(q), q, steps).counter == 150
  {
    steps := Flood(Setup(150, [false]), 0, 151);
  }

  /** The failing counter: two senders that do not check, on a limit of one. */
  lemma TwoUncheckedExample() returns (steps: seq<Step>)
    ensures var q := Setup(1, [false, false]); Run(Start(q), q, steps).counter == 3
  {
    steps := Outgrow(Setup(1, [false, false]), 0, 1, 1);
  }

  // ---------- the objects, used by one thread at a time ----------

  /** A queue with its counter. Uninterrupted, each call is the corresponding steps in a row. */
  class CountedQueue<T> {
    const limit: nat
    var counter: nat
    var items: seq<T>
    var connected: bool

    predicate Exact()
      reads this
    {
      counter == Min(|items|, limit)
    }

    constructor (limit: nat)
      ensures this.limit == limit && items == [] && connected && Exact()
    {
      this.limit := limit;
      counter, items, connected := 0, [], true;
    }

    /** With an exact counter, occupied means that the queue holds at least its limit of items. */
    method IsOccupied() returns (occupied: bool)
      ensures occupied <==> limit <= counter
      ensures Exact() ==> (occupied <==> limit <= |items|)
    {
      occupied := limit <= counter;
    }

    /** A failed send leaves the counter as it found it. */
    method Send(item: T) returns (ok: bool)
      modifies this
      ensures ok == old(connected) && connected == old(connected)
      ensures items == if ok then old(items) + [item] else old(items)
      ensures counter == if ok && old(counter) != limit then old(counter) + 1 else old(counter)
      ensures ok && old(Exact()) && |old(items)| < limit ==> Exact()
    {
      var incremented := counter != limit;
      if incremented {
        counter := counter + 1;
      }
      ok := connected;
      if ok {
        items := items + [item];
      } else if incremented && counter > 0 {
        counter := counter - 1;
      }
    }

    method TryRecv() returns (item: Option<T>)
      modifies this
      ensures item == if old(items) == [] then None else Some(old(items)[0])
      ensures items == if old(items) == [] then [] else old(items)[1..]
      ensures counter == if old(items) != [] && old(counter) > 0 then old(counter) - 1 else old(counter)
      ensures connected == old(connected)
    {
      if items == [] {
        return None;
      }
      item := Some(items[0]);
      items := items[1..];
      if counter > 0 {
        counter := counter - 1;
      }
    }
  }
}
