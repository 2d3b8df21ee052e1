/**
 * Sending capsules to the subscribers of a stream: every queue is looked up first, then every message is
 * encoded, then they are sent one by one, while the network loop removes and pops queues at any moment.
 */
module Multicast {
  import opened Basics

  datatype Target = Target(scid: Bytes, stream: nat)

  datatype Registration = Registration(user: nat, target: Target)

  /** Why nothing, or not everything, was confirmed. */
  datatype Failure = NoTargets | NoStation | QueueUnavailable | EncodingFailed | Disconnected(after: nat) | WakeFailed

  datatype Result<+T> = Ok(value: T) | Err(error: Failure)

  /** A queue with its whole past: everything that ever entered it, of which `left` items were popped. */
  datatype Channel = Channel(entered: seq<Bytes>, left: nat)

  type Queues = map<Target, Channel>

  function Push(c: Channel, body: Bytes): Channel {
    c.(entered := c.entered + [body])
  }

  /** The data callback and the framing; `None` when either fails. */
  type Encoder = Target -> Option<Bytes>

  /** What the network loop does to the queues between two actions of the sender. */
  datatype Meanwhile = Meanwhile(gone: set<Target>, popped: map<Target, nat>)

  function Interfere(queues: Queues, m: Meanwhile): Queues {
    map t | t in queues && t !in m.gone ::
      var c := queues[t];
      c.(left := Min(|c.entered|, c.left + if t in m.popped then m.popped[t] else 0))
  }

  /** `env[i]` is what happens just before the i-th target is handled. */
  type Elsewhere = seq<Meanwhile>

  /** The same histories, some queues missing: what interference alone can make of the queues. */
  predicate SameHistories(queues: Queues, after: Queues) {
    forall t | t in after :: t in queues && after[t].entered == queues[t].entered
  }

  // ---------- the three loops ----------

  /** Look up every target's queue, stopping at the first that is absent. */
  function Resolve(queues: Queues, targets: seq<Target>, env: Elsewhere): (r: (Queues, bool))
    requires |env| == |targets|
    decreases |targets|
  {
    if targets == [] then (queues, true)
    else
      var left := Interfere(queues, env[0]);
      if targets[0] !in left then (left, false) else Resolve(left, targets[1..], env[1..])
  }

  function EncodeAll(encode: Encoder, targets: seq<Target>): Option<seq<Bytes>>
    decreases |targets|
  {
    if targets == [] then Some([])
    else
      match encode(targets[0])
      case None => None
      case Some(body) =>
        match EncodeAll(encode, targets[1..])
        case None => None
        case Some(rest) => Some([body] + rest)
  }

  /** Send in order until a queue is gone; the number of messages accepted. */
  function SendAll(queues: Queues, targets: seq<Target>, bodies: seq<Bytes>, env: Elsewhere): (r: (Queues, nat))
    requires |env| == |targets| == |bodies|
    decreases |targets|
  {
    if targets == [] then (queues, 0)
    else
      var left := Interfere(queues, env[0]);
      if targets[0] !in left then (left, 0)
      else
        var sent := left[targets[0] := Push(left[targets[0]], bodies[0])];
        var (after, n) := SendAll(sent, targets[1..], bodies[1..], env[1..]);
        (after, n + 1)
  }

  // ---------- what a queue is owed ----------

  /** The messages for one target among the first `n`, in order. */
  function For(t: Target, targets: seq<Target>, bodies: seq<Bytes>, n: nat): seq<Bytes>
    requires n <= |targets| == |bodies|
    decreases n
  {
    if n == 0 then []
    else (if targets[0] == t then [bodies[0]] else []) + For(t, targets[1..], bodies[1..], n - 1)
  }

  /** Every target's queue is there, and did not disappear before its turn. */
  predicate AllFound(queues: Queues, targets: seq<Target>, env: Elsewhere)
    requires |env| == |targets|
  {
    forall i | 0 <= i < |targets| :: targets[i] in queues && forall j | 0 <= j <= i :: targets[i] !in env[j].gone
  }

  lemma AllFoundTail(queues: Queues, targets: seq<Target>, env: Elsewhere)
    requires |env| == |targets| > 0
    ensures var left := Interfere(queues, env[0]);
      AllFound(queues, targets, env) <==> targets[0] in left && AllFound(left, targets[1..], env[1..])
  {
    var left := Interfere(queues, env[0]);
    if AllFound(queues, targets, env) {
      forall i | 0 <= i < |targets[1..]|
        ensures targets[1..][i] in left && forall j | 0 <= j <= i :: targets[1..][i] !in env[1..][j].gone
      {
        assert targets[1..][i] == targets[i + 1] && targets[i + 1] !in env[0].gone;
        assert forall j | 0 <= j <= i :: env[1..][j] == env[j + 1];
      }
    }
    if targets[0] in left && AllFound(left, targets[1..], env[1..]) {
      forall i | 0 <= i < |targets|
        ensures targets[i] in queues && forall j | 0 <= j <= i :: targets[i] !in env[j].gone
      {
        if i > 0 {
          assert targets[i] == targets[1..][i - 1];
          forall j | 0 <= j <= i
            ensures targets[i] !in env[j].gone
          {
            assert j > 0 ==> env[j] == env[1..][j - 1];
          }
        }
      }
    }
  }

  lemma {:induction false} ResolveEnqueuesNothing(queues: Queues, targets: seq<Target>, env: Elsewhere)
    requires |env| == |targets|
    ensures var (after, ok) := Resolve(queues, targets, env);
      SameHistories(queues, after) && (ok <==> AllFound(queues, targets, env))
    decreases |targets|
  {
    if targets == [] {
    } else {
      var left := Interfere(queues, env[0]);
      AllFoundTail(queues, targets, env);
      if targets[0] in left {
        ResolveEnqueuesNothing(left, targets[1..], env[1..]);
      }
    }
  }

  lemma {:induction false} EncodeAllExactly(encode: Encoder, targets: seq<Target>)
    ensures var bodies := EncodeAll(encode, targets);
      && (bodies.Some? <==> forall i | 0 <= i < |targets| :: encode(targets[i]).Some?)
      && (bodies.Some? ==>
            (&& |bodies.value| == |targets|
             && forall i | 0 <= i < |targets| :: encode(targets[i]) == Some(bodies.value[i])))
    decreases |targets|
  {
    if targets == [] {
    } else {
      EncodeAllExactly(encode, targets[1..]);
      assert forall i | 0 < i < |targets| :: targets[i] == targets[1..][i - 1];
      if forall i | 0 <= i < |targets| :: encode(targets[i]).Some? {
        assert forall i | 0 <= i < |targets[1..]| :: encode(targets[1..][i]) == encode(targets[i + 1]);
      }
    }
  }

  /** What entered with the first message and what entered with the others is what entered altogether. */
  lemma OwedTogether(entered: seq<Bytes>, t: Target, targets: seq<Target>, bodies: seq<Bytes>, n: nat)
    requires 0 < n <= |targets| == |bodies|
    ensures (entered + if targets[0] == t then [bodies[0]] else []) + For(t, targets[1..], bodies[1..], n - 1)
      == entered + For(t, targets, bodies, n)
  {
  }

  /**
   * The prefix property: the accepted messages are exactly those of the first `n` targets, each surviving
   * queue received its own, in order, and the sending stops early only at a target whose queue is gone.
   */
  lemma {:induction false} SendAllPrefix(queues: Queues, targets: seq<Target>, bodies: seq<Bytes>, env: Elsewhere)
    requires |env| == |targets| == |bodies|
    ensures var (after, n) := SendAll(queues, targets, bodies, env);
      && n <= |targets|
      && (forall t | t in after :: t in queues && after[t].entered == queues[t].entered + For(t, targets, bodies, n))
      && (n < |targets| ==> targets[n] !in after)
    decreases |targets|
  {
    if targets == [] {
    } else {
      var left := Interfere(queues, env[0]);
      if targets[0] in left {
        var sent := left[targets[0] := Push(left[targets[0]], bodies[0])];
        SendAllPrefix(sent, targets[1..], bodies[1..], env[1..]);
        var (after, n) := SendAll(queues, targets, bodies, env);
        assert n < |targets| ==> targets[n] == targets[1..][n - 1];
        forall t | t in after
          ensures t in queues && after[t].entered == queues[t].entered + For(t, targets, bodies, n)
        {
          OwedTogether(queues[t].entered, t, targets, bodies, n);
          assert sent[t].entered == queues[t].entered + if targets[0] == t then [bodies[0]] else [];
        }
      }
    }
  }

  // ---------- the whole call ----------

  /** The whole call on the queues, with what the network loop does to them during its two loops over queues. */
  function Deliver(
    queues: Queues, station: bool, targets: seq<Target>, encode: Encoder,
    early: Elsewhere, late: Elsewhere, wakes: bool): (r: (Queues, Result<seq<Bytes>>))
    requires |early| == |late| == |targets|
  {
    var (looked, found) := Resolve(queues, targets, early);
    var bodies := EncodeAll(encode, targets);
    if targets == [] then (queues, Err(NoTargets))
    else if !station then (queues, Err(NoStation))
    else if !found then (looked, Err(QueueUnavailable))
    else if bodies.None? || |bodies.value| != |targets| then (looked, Err(EncodingFailed))
    else
      var (after, n) := SendAll(looked, targets, bodies.value, late);
      (after, if n < |targets| then Err(Disconnected(n)) else if wakes then Ok(bodies.value) else Err(WakeFailed))
  }

  /** How many targets got their message, told from the call's answer. */
  function Reached(r: Result<seq<Bytes>>, targets: seq<Target>): nat {
    match r
    case Ok(_) => |targets|
    case Err(WakeFailed) => |targets|
    case Err(Disconnected(after)) => Min(after, |targets|)
    case Err(_) => 0
  }

  /**
   * Whatever is removed or popped meanwhile, the answer tells the truth: what entered each surviving queue
   * during the call is exactly its messages among the first targets the answer counts as reached, in list
   * order; nothing when looking up or encoding failed, everything on success and when only the wake-up failed.
   */
  lemma AnswerTellsWhatWasQueued(
    queues: Queues, station: bool, targets: seq<Target>, encode: Encoder,
    early: Elsewhere, late: Elsewhere, wakes: bool)
    requires |early| == |late| == |targets|
    ensures var (after, r) := Deliver(queues, station, targets, encode, early, late, wakes);
      var bodies := EncodeAll(encode, targets);
      && (forall t | t in after :: t in queues)
      && (Reached(r, targets) == 0 ==> SameHistories(queues, after))
      && (Reached(r, targets) > 0 ==>
            && bodies.Some? && |bodies.value| == |targets|
            && (forall i | 0 <= i < |targets| :: encode(targets[i]) == Some(bodies.value[i]))
            && (forall t | t in after ::
                  after[t].entered == queues[t].entered + For(t, targets, bodies.value, Reached(r, targets))))
      && (r.Ok? ==> targets != [] && bodies == Some(r.value))
      && (r.Err? && r.error.Disconnected? ==> r.error.after < |targets| && targets[r.error.after] !in after)
  {
    var (looked, _) := Resolve(queues, targets, early);
    ResolveEnqueuesNothing(queues, targets, early);
    EncodeAllExactly(encode, targets);
    var bodies := EncodeAll(encode, targets);
    if bodies.Some? {
      SendAllPrefix(looked, targets, bodies.value, late);
      assert forall t: Target :: For(t, targets, bodies.value, 0) == [];
    }
  }

  // ---------- when the call answers what ----------

  /** The queue of target `i` is there at its lookup, and still there when its message is sent. */
  predicate Reachable(queues: Queues, targets: seq<Target>, early: Elsewhere, late: Elsewhere, i: nat)
    requires |early| == |late| == |targets| && i < |targets|
  {
    && targets[i] in queues
    && (forall j | 0 <= j < |early| :: targets[i] !in early[j].gone)
    && (forall j | 0 <= j <= i :: targets[i] !in late[j].gone)
  }

  /** After a lookup of all targets a queue is left exactly when nothing removed it meanwhile. */
  lemma {:induction false} LookedUp(queues: Queues, targets: seq<Target>, env: Elsewhere, t: Target)
    requires |env| == |targets| && Resolve(queues, targets, env).1
    ensures t in Resolve(queues, targets, env).0 <==> t in queues && forall j | 0 <= j < |env| :: t !in env[j].gone
    decreases |targets|
  {
    if targets == [] {
    } else {
      var left := Interfere(queues, env[0]);
      LookedUp(left, targets[1..], env[1..], t);
      assert (forall j | 0 <= j < |env[1..]| :: t !in env[1..][j].gone)
        <==> (forall j | 1 <= j < |env| :: t !in env[j].gone) by {
        assert forall j | 1 <= j < |env| :: env[j] == env[1..][j - 1];
        assert forall j | 0 <= j < |env[1..]| :: env[1..][j] == env[j + 1];
      }
    }
  }

  /** The queue of target `i` is there when its message is sent. */
  predicate Found(queues: Queues, targets: seq<Target>, env: Elsewhere, i: nat)
    requires |env| == |targets| && i < |targets|
  {
    targets[i] in queues && forall j | 0 <= j <= i :: targets[i] !in env[j].gone
  }

  lemma FoundLater(queues: Queues, targets: seq<Target>, env: Elsewhere, i: nat)
    requires |env| == |targets| && 0 < i < |targets|
    ensures Found(queues, targets, env, i) <==> Found(Interfere(queues, env[0]), targets[1..], env[1..], i - 1)
  {
    var left := Interfere(queues, env[0]);
    assert targets[i] == targets[1..][i - 1];
    assert forall j | 0 <= j < i :: env[1..][j] == env[j + 1];
    if Found(left, targets[1..], env[1..], i - 1) {
      forall j | 0 <= j <= i
        ensures targets[i] !in env[j].gone
      {
        assert j > 0 ==> env[j] == env[1..][j - 1];
      }
    }
  }

  /** Sending accepts exactly the messages before the first target whose queue is not there at its turn. */
  lemma {:induction false} SendStopsExactly(
    queues: Queues, targets: seq<Target>, bodies: seq<Bytes>, env: Elsewhere)
    requires |env| == |targets| == |bodies|
    ensures var n := SendAll(queues, targets, bodies, env).1;
      && n <= |targets| && (forall i | 0 <= i < n :: Found(queues, targets, env, i))
      && (n < |targets| ==> !Found(queues, targets, env, n))
    decreases |targets|
  {
    if targets == [] {
    } else {
      var left := Interfere(queues, env[0]);
      if targets[0] in left {
        var sent := left[targets[0] := Push(left[targets[0]], bodies[0])];
        var n := SendAll(queues, targets, bodies, env).1;
        SendStopsExactly(sent, targets[1..], bodies[1..], env[1..]);
        forall i | 0 < i < |targets|
          ensures Found(queues, targets, env, i) <==> Found(sent, targets[1..], env[1..], i - 1)
        {
          FoundLater(queues, targets, env, i);
        }
      }
    }
  }

  /**
   * Exactly when the call answers what, in its inputs alone: the first obstacle in the order of the call decides,
   * and with no obstacle it succeeds with the messages as encoded.
   */
  lemma CallAnswersExactly(
    queues: Queues, station: bool, targets: seq<Target>, encode: Encoder,
    early: Elsewhere, late: Elsewhere, wakes: bool)
    requires |early| == |late| == |targets|
    ensures var r := Deliver(queues, station, targets, encode, early, late, wakes).1;
      var found := forall i | 0 <= i < |targets| ::
        targets[i] in queues && forall j | 0 <= j <= i :: targets[i] !in early[j].gone;
      var encodes := forall i | 0 <= i < |targets| :: encode(targets[i]).Some?;
      var reached := forall i | 0 <= i < |targets| :: Reachable(queues, targets, early, late, i);
      var prepared := targets != [] && station && found && encodes;
      && (r == Err(NoTargets) <==> targets == [])
      && (r == Err(NoStation) <==> targets != [] && !station)
      && (r == Err(QueueUnavailable) <==> targets != [] && station && !found)
      && (r == Err(EncodingFailed) <==> targets != [] && station && found && !encodes)
      && (r.Err? && r.error.Disconnected? <==> prepared && !reached)
      && (r == Err(WakeFailed) <==> prepared && reached && !wakes)
      && (r.Ok? <==> prepared && reached && wakes)
      && (r.Ok? ==> |r.value| == |targets| && forall i | 0 <= i < |targets| :: encode(targets[i]) == Some(r.value[i]))
  {
    ResolveEnqueuesNothing(queues, targets, early);
    EncodeAllExactly(encode, targets);
    var (looked, found) := Resolve(queues, targets, early);
    var bodies := EncodeAll(encode, targets);
    if found && bodies.Some? {
      SendStopsExactly(looked, targets, bodies.value, late);
      ReachedIsFound(queues, targets, early, late);
    }
  }

  lemma ReachedIsFound(queues: Queues, targets: seq<Target>, early: Elsewhere, late: Elsewhere)
    requires |early| == |late| == |targets| && Resolve(queues, targets, early).1
    ensures forall i | 0 <= i < |targets| ::
      Reachable(queues, targets, early, late, i) <==> Found(Resolve(queues, targets, early).0, targets, late, i)
  {
    forall i | 0 <= i < |targets|
      ensures Reachable(queues, targets, early, late, i) <==> Found(Resolve(queues, targets, early).0, targets, late, i)
    {
      LookedUp(queues, targets, early, targets[i]);
    }
  }

  /** A failed send names the first target whose queue was gone; every target before it was reached. */
  lemma DisconnectedAtFirstUnreachable(
    queues: Queues, station: bool, targets: seq<Target>, encode: Encoder,
    early: Elsewhere, late: Elsewhere, wakes: bool, n: nat)
    requires |early| == |late| == |targets|
    requires Deliver(queues, station, targets, encode, early, late, wakes).1 == Err(Disconnected(n))
    ensures n < |targets| && !Reachable(queues, targets, early, late, n)
    ensures forall i | 0 <= i < n :: Reachable(queues, targets, early, late, i)
  {
    ReachedIsFound(queues, targets, early, late);
    EncodeAllExactly(encode, targets);
    SendStopsExactly(Resolve(queues, targets, early).0, targets, EncodeAll(encode, targets).value, late);
  }

  // ---------- the registry and the senders ----------

  class StreamSessions {
    /** For each path, who is registered on which stream. */
    var sessions: map<string, set<Registration>>
    /** The low-priority queues, shared with the network loop. */
    var queues: Queues
    var station: bool

    constructor ()
      ensures sessions == map[] && queues == map[] && !station
    {
      sessions, queues, station := map[], map[], false;
    }

    method ResolveAll(targets: seq<Target>, env: Elsewhere) returns (ok: bool)
      requires |env| == |targets|
      modifies this`queues
      ensures (queues, ok) == Resolve(old(queues), targets, env)
    {
      for i := 0 to |targets|
        invariant Resolve(old(queues), targets, env) == Resolve(queues, targets[i..], env[i..])
      {
        assert targets[i..][1..] == targets[i + 1..] && env[i..][1..] == env[i + 1..];
        queues := Interfere(queues, env[i]);
        if targets[i] !in queues {
          return false;
        }
      }
      ok := true;
    }

    method Prepare(targets: seq<Target>, encode: Encoder) returns (prepared: Option<seq<Bytes>>)
      ensures prepared == EncodeAll(encode, targets)
    {
      EncodeAllExactly(encode, targets);
      var bodies: seq<Bytes> := [];
      for i := 0 to |targets|
        invariant |bodies| == i && forall j | 0 <= j < i :: encode(targets[j]) == Some(bodies[j])
      {
        var body := encode(targets[i]);
        if body.None? {
          return None;
        }
        bodies := bodies + [body.value];
      }
      assert bodies == EncodeAll(encode, targets).value;
      prepared := Some(bodies);
    }

    method SendPrepared(targets: seq<Target>, prepared: seq<Bytes>, env: Elsewhere) returns (accepted: nat)
      requires |env| == |targets| == |prepared|
      modifies this`queues
      ensures (queues, accepted) == SendAll(old(queues), targets, prepared, env)
    {
      ghost var all := SendAll(queues, targets, prepared, env);
      for i := 0 to |targets|
        invariant all.0 == SendAll(queues, targets[i..], prepared[i..], env[i..]).0
        invariant all.1 == SendAll(queues, targets[i..], prepared[i..], env[i..]).1 + i
      {
        assert targets[i..][1..] == targets[i + 1..] && prepared[i..][1..] == prepared[i + 1..];
        assert env[i..][1..] == env[i + 1..];
        queues := Interfere(queues, env[i]);
        if targets[i] !in queues {
          return i;
        }
        queues := queues[targets[i] := Push(queues[targets[i]], prepared[i])];
      }
      accepted := |targets|;
    }

    method SendOneOrMore(targets: seq<Target>, encode: Encoder, early: Elsewhere, late: Elsewhere, wakes: bool)
      returns (r: Result<seq<Bytes>>)
      requires |early| == |late| == |targets|
      modifies this`queues
      ensures (queues, r) == Deliver(old(queues), station, targets, encode, early, late, wakes)
    {
      if targets == [] {
        return Err(NoTargets);
      }
      if !station {
        return Err(NoStation);
      }
      var found := ResolveAll(targets, early);
      if !found {
        return Err(QueueUnavailable);
      }
      var prepared := Prepare(targets, encode);
      if prepared.None? {
        return Err(EncodingFailed);
      }
      EncodeAllExactly(encode, targets);
      var accepted := SendPrepared(targets, prepared.value, late);
      if accepted < |targets| {
        return Err(Disconnected(accepted));
      }
      r := if wakes then Ok(prepared.value) else Err(WakeFailed);
    }

    /** A prepared capsule is sent again only while its user still owns that very stream of that connection. */
    method Retry(user: nat, target: Target, path: string, encode: Encoder,
                 early: Meanwhile, late: Meanwhile, wakes: bool)
      returns (sent: bool)
      modifies this`queues
      ensures
        if path in sessions && Registration(user, target) in sessions[path] then
          var (after, r) := Deliver(old(queues), station, [target], encode, [early], [late], wakes);
          queues == after && sent == r.Ok?
        else !sent && queues == old(queues)
    {
      if path !in sessions || Registration(user, target) !in sessions[path] {
        return false;
      }
      var r := SendOneOrMore([target], encode, [early], [late], wakes);
      sent := r.Ok?;
    }

    /** A closed connection leaves the registry of every path. */
    method CleanClosedConnexions(scid: Bytes)
      modifies this`sessions
      ensures sessions.Keys == old(sessions).Keys
      ensures forall path | path in sessions ::
        sessions[path] == set e | e in old(sessions)[path] && e.target.scid != scid
    {
      var todo := sessions.Keys;
      while todo != {}
        invariant todo <= sessions.Keys == old(sessions).Keys
        invariant forall path | path in sessions ::
          sessions[path] == if path in todo then old(sessions)[path]
                            else set e | e in old(sessions)[path] && e.target.scid != scid
        decreases |todo|
      {
        var path :| path in todo;
        todo := todo - {path};
        sessions := sessions[path := set e | e in sessions[path] && e.target.scid != scid];
      }
    }
  }

  /** With no queue disappearing and every message encodable, every listed target gets its message, in list order. */
  lemma UndisturbedSendReachesAll(queues: Queues, targets: seq<Target>, bodies: seq<Bytes>, env: Elsewhere)
    requires |env| == |targets| == |bodies|
    requires forall i | 0 <= i < |targets| :: targets[i] in queues && env[i].gone == {}
    ensures var (after, n) := SendAll(queues, targets, bodies, env);
      && n == |targets| && after.Keys == queues.Keys
      && forall t | t in queues :: after[t].entered == queues[t].entered + For(t, targets, bodies, |targets|)
  {
    SendAllPrefix(queues, targets, bodies, env);
    NoneLost(queues, targets, bodies, env);
  }

  lemma {:induction false} NoneLost(queues: Queues, targets: seq<Target>, bodies: seq<Bytes>, env: Elsewhere)
    requires |env| == |targets| == |bodies|
    requires forall i | 0 <= i < |targets| :: targets[i] in queues && env[i].gone == {}
    ensures SendAll(queues, targets, bodies, env).0.Keys == queues.Keys
    ensures SendAll(queues, targets, bodies, env).1 == |targets|
    decreases |targets|
  {
    if targets == [] {
    } else {
      var left := Interfere(queues, env[0]);
      NoneLost(left[targets[0] := Push(left[targets[0]], bodies[0])], targets[1..], bodies[1..], env[1..]);
    }
  }
}
