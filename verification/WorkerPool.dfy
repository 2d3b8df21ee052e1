/** Which file worker writes which stream: a stream keeps its worker, and new streams go round in turn. */
module WorkerPool {
  import opened Basics

  datatype Key = Key(stream: nat, conn: string)

  /** `current` is the next worker in turn; it is kept in one byte, as is the number of workers in use. */
  datatype Pool = Pool(streamMap: map<Key, nat>, current: nat, workers: nat)

  predicate Valid(p: Pool) {
    && 1 <= p.workers <= 255 && p.current < p.workers
    && forall k | k in p.streamMap :: p.streamMap[k] < p.workers
  }

  function Fresh(workers: nat): Pool {
    Pool(map[], 0, workers)
  }

  /** A known stream changes nothing; a new one takes the worker in turn. */
  function Associate(p: Pool, k: Key): Pool
    requires p.workers > 0
  {
    if k in p.streamMap then p
    else Pool(p.streamMap[k := p.current], (p.current + 1) % p.workers, p.workers)
  }

  function Remove(p: Pool, k: Key): Pool {
    p.(streamMap := p.streamMap - {k})
  }

  datatype Step = Bind(k: Key) | Release(k: Key)

  function Apply(p: Pool, step: Step): Pool
    requires p.workers > 0
  {
    match step
    case Bind(k) => Associate(p, k)
    case Release(k) => Remove(p, k)
  }

  function Run(p: Pool, steps: seq<Step>): Pool
    requires p.workers > 0
    decreases |steps|
  {
    if steps == [] then p else Run(Apply(p, steps[0]), steps[1..])
  }

  /** Every stored index names a worker, in every run. */
  lemma {:induction false} RunValid(p: Pool, steps: seq<Step>)
    requires Valid(p)
    ensures Valid(Run(p, steps)) && Run(p, steps).workers == p.workers
    decreases |steps|
  {
    if steps == [] {
    } else {
      RunValid(Apply(p, steps[0]), steps[1..]);
    }
  }

  /** A bound stream keeps its worker for as long as it is not released, whatever happens to other streams. */
  lemma {:induction false} BindingIsStable(p: Pool, steps: seq<Step>, k: Key)
    requires Valid(p) && k in p.streamMap && Release(k) !in steps
    ensures k in Run(p, steps).streamMap && Run(p, steps).streamMap[k] == p.streamMap[k]
    decreases |steps|
  {
    if steps == [] {
    } else {
      assert steps[0] != Release(k);
      BindingIsStable(Apply(p, steps[0]), steps[1..], k);
    }
  }

  // ---------- balance ----------

  function Bound(streamMap: map<Key, nat>, worker: nat): set<Key> {
    set k | k in streamMap && streamMap[k] == worker
  }

  function StreamsOf(p: Pool, worker: nat): set<Key> {
    Bound(p.streamMap, worker)
  }

  lemma BoundUpdate(m: map<Key, nat>, k: Key, worker: nat, w: nat)
    requires k !in m
    ensures |Bound(m[k := worker], w)| == |Bound(m, w)| + (if w == worker then 1 else 0)
  {
    var after := m[k := worker];
    if w == worker {
      assert Bound(after, w) == Bound(m, w) + {k};
    } else {
      assert Bound(after, w) == Bound(m, w);
    }
  }

  function BindAll(keys: seq<Key>): seq<Step> {
    seq(|keys|, i requires 0 <= i < |keys| => Bind(keys[i]))
  }

  /** After some whole rounds, the workers before the one in turn hold one stream more than the others. */
  predicate Round(p: Pool, rounds: nat) {
    forall w | 0 <= w < p.workers :: |StreamsOf(p, w)| == rounds + (if w < p.current then 1 else 0)
  }

  lemma NextInTurn(current: nat, workers: nat)
    requires current < workers
    ensures (current + 1) % workers == if current + 1 == workers then 0 else current + 1
  {
  }

  lemma NewStreamKeepsRounds(p: Pool, k: Key, rounds: nat) returns (rounds': nat)
    requires Valid(p) && k !in p.streamMap && Round(p, rounds)
    ensures Round(Associate(p, k), rounds')
  {
    NextInTurn(p.current, p.workers);
    rounds' := if p.current + 1 == p.workers then rounds + 1 else rounds;
    forall w | 0 <= w < p.workers
      ensures |StreamsOf(Associate(p, k), w)| == |StreamsOf(p, w)| + (if w == p.current then 1 else 0)
    {
      BoundUpdate(p.streamMap, k, p.current, w);
    }
  }

  lemma {:induction false} AllNewKeepRounds(p: Pool, keys: seq<Key>, rounds: nat) returns (rounds': nat)
    requires Valid(p) && Round(p, rounds)
    requires forall i | 0 <= i < |keys| :: keys[i] !in p.streamMap
    requires forall i, j | 0 <= i < j < |keys| :: keys[i] != keys[j]
    ensures Round(Run(p, BindAll(keys)), rounds')
    decreases |keys|
  {
    if keys == [] {
      rounds' := rounds;
    } else {
      var next := NewStreamKeepsRounds(p, keys[0], rounds);
      assert BindAll(keys)[1..] == BindAll(keys[1..]);
      rounds' := AllNewKeepRounds(Associate(p, keys[0]), keys[1..], next);
    }
  }

  /** After any number of new streams, any two workers differ by at most one stream. */
  lemma WorkersStayBalanced(workers: nat, keys: seq<Key>, v: nat, w: nat)
    requires 1 <= workers <= 255 && v < workers && w < workers
    requires forall i, j | 0 <= i < j < |keys| :: keys[i] != keys[j]
    ensures var p := Run(Fresh(workers), BindAll(keys)); |StreamsOf(p, v)| <= |StreamsOf(p, w)| + 1
  {
    var p := Fresh(workers);
    forall u | 0 <= u < workers
      ensures StreamsOf(p, u) == {}
    {
    }
    var rounds := AllNewKeepRounds(p, keys, 0);
    RunValid(p, BindAll(keys));
  }

  /** The worker whose turn comes after `current`, and the one `i` turns later. */
  function After(current: nat, workers: nat): nat {
    if current + 1 == workers then 0 else current + 1
  }

  function Turn(current: nat, i: nat, workers: nat): nat
    decreases i
  {
    if i == 0 then current else Turn(After(current, workers), i - 1, workers)
  }

  lemma {:induction false} TurnIsModulo(current: nat, i: nat, workers: nat)
    requires current < workers
    ensures Turn(current, i, workers) == (current + i) % workers
    decreases i
  {
    if i == 0 {
      QuotientIs(current, workers, 0, current);
    } else {
      TurnIsModulo(After(current, workers), i - 1, workers);
      if current + 1 == workers {
        OneRoundLess(i - 1, workers);
      }
    }
  }

  lemma OneRoundLess(x: nat, workers: nat)
    requires workers > 0
    ensures x % workers == (x + workers) % workers
  {
    var (q, left) := (x / workers, x % workers);
    Distributes(q, 1, workers);
    QuotientIs(x + workers, workers, q + 1, left);
  }

  /** The pool after one more new stream. */
  function WithNext(p: Pool, k: Key): Pool {
    Pool(p.streamMap[k := p.current], After(p.current, p.workers), p.workers)
  }

  lemma BindsNext(p: Pool, keys: seq<Key>)
    requires Valid(p) && keys != [] && keys[0] !in p.streamMap
    ensures Valid(WithNext(p, keys[0])) && Run(p, BindAll(keys)) == Run(WithNext(p, keys[0]), BindAll(keys[1..]))
  {
    NextInTurn(p.current, p.workers);
    assert Associate(p, keys[0]) == WithNext(p, keys[0]);
    assert BindAll(keys)[1..] == BindAll(keys[1..]);
  }

  lemma FirstGoesNext(p: Pool, keys: seq<Key>)
    requires Valid(p) && keys != [] && keys[0] !in p.streamMap
    ensures var t := Run(p, BindAll(keys)); keys[0] in t.streamMap && t.streamMap[keys[0]] == p.current
  {
    BindsNext(p, keys);
    BindingIsStable(WithNext(p, keys[0]), BindAll(keys[1..]), keys[0]);
  }

  predicate AllNew(p: Pool, keys: seq<Key>) {
    && (forall i | 0 <= i < |keys| :: keys[i] !in p.streamMap)
    && (forall i, j | 0 <= i < j < |keys| :: keys[i] != keys[j])
  }

  lemma {:induction false} NewStreamsTakeTurns(p: Pool, keys: seq<Key>, i: nat)
    requires Valid(p) && i < |keys| && AllNew(p, keys)
    ensures keys[i] in Run(p, BindAll(keys)).streamMap
    ensures Run(p, BindAll(keys)).streamMap[keys[i]] == Turn(p.current, i, p.workers)
    decreases |keys|
  {
    if i == 0 {
      FirstGoesNext(p, keys);
    } else {
      BindsNext(p, keys);
      NewStreamsTakeTurns(WithNext(p, keys[0]), keys[1..], i - 1);
    }
  }

  /** New streams go round the workers in turn: the i-th to the worker i places on, modulo their number. */
  lemma NewStreamsGoRound(p: Pool, keys: seq<Key>, i: nat)
    requires Valid(p) && i < |keys| && AllNew(p, keys)
    ensures keys[i] in Run(p, BindAll(keys)).streamMap
    ensures Run(p, BindAll(keys)).streamMap[keys[i]] == (p.current + i) % p.workers
  {
    NewStreamsTakeTurns(p, keys, i);
    TurnIsModulo(p.current, i, p.workers);
  }

  // ---------- the pool ----------

  class FileWriterPool {
    var streamMap: map<Key, nat>
    var currentChannelAvailable: nat
    const workersAmount: nat

    ghost function View(): Pool
      reads this
    {
      Pool(streamMap, currentChannelAvailable, workersAmount)
    }

    constructor (workersAmount: nat)
      requires 1 <= workersAmount <= 255
      ensures View() == Fresh(workersAmount) && Valid(View())
    {
      streamMap, currentChannelAvailable := map[], 0;
      this.workersAmount := workersAmount;
    }

    method GetWorkerIndexForThisStream(k: Key) returns (index: Option<nat>)
      ensures index == if k in streamMap then Some(streamMap[k]) else None
      ensures Valid(View()) && index.Some? ==> index.value < workersAmount
    {
      index := if k in streamMap then Some(streamMap[k]) else None;
    }

    method AssociateStreamWithNextListener(k: Key)
      requires Valid(View())
      modifies this
      ensures View() == Associate(old(View()), k) && Valid(View())
    {
      if k in streamMap {
        return;
      }
      var workerIndex := currentChannelAvailable;
      currentChannelAvailable := (workerIndex + 1) % workersAmount;
      streamMap := streamMap[k := workerIndex];
    }

    method RemoveCompletedStreamFromMap(k: Key)
      requires Valid(View())
      modifies this
      ensures View() == Remove(old(View()), k) && Valid(View())
    {
      streamMap := streamMap - {k};
    }
  }
}
