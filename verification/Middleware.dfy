/** The middleware worker: a fold of header transformations that ends in exactly one signal per job. */
module Middleware {
  import opened Basics
  import D = Disposition

  /** A middleware's answer: the headers for the next one, a refusal, or a failed call. */
  datatype Flow<H> = Continue(headers: H) | Abort | Broken

  /** What the chain makes of the headers; `None` when some middleware stops it. */
  function Fold<H>(chain: seq<H -> Flow<H>>, headers: H): Option<H>
    decreases |chain|
  {
    if chain == [] then Some(headers)
    else
      match chain[0](headers)
      case Continue(next) => Fold(chain[1..], next)
      case _ => None
  }

  /** No middleware leaves the headers alone; one middleware's headers, if it continues, are the chain's. */
  lemma FoldOfOne<H>(m: H -> Flow<H>, headers: H)
    ensures Fold([], headers) == Some(headers)
    ensures Fold([m], headers) == match m(headers) { case Continue(next) => Some(next) case _ => None }
  {
    assert [m][1..] == [];
  }

  /** The verdicts of the middlewares that are actually called: none is called after a refusal. */
  function Verdicts<H>(chain: seq<H -> Flow<H>>, headers: H): seq<D.Verdict>
    decreases |chain|
  {
    if chain == [] then []
    else
      match chain[0](headers)
      case Continue(next) => [D.Verdict.Continue] + Verdicts(chain[1..], next)
      case Abort => [D.Verdict.Abort]
      case Broken => [D.Verdict.Broken]
  }

  /** A chain passes exactly when every verdict lets it continue; only its last verdict can refuse. */
  lemma {:induction false} ChainPassesIffClean<H>(chain: seq<H -> Flow<H>>, headers: H)
    ensures var all := Verdicts(chain, headers);
      && (Fold(chain, headers).Some? <==> |all| == |chain| && D.Clean(all, |all|))
      && (forall i | 0 <= i < |all| - 1 :: all[i] == D.Verdict.Continue)
      && (Fold(chain, headers).None? ==> all != [] && all[|all| - 1] != D.Verdict.Continue)
    decreases |chain|
  {
    if chain == [] {
    } else {
      match chain[0](headers)
      case Continue(next) =>
        ChainPassesIffClean(chain[1..], next);
        var rest := Verdicts(chain[1..], next);
        var all := Verdicts(chain, headers);
        assert all == [D.Verdict.Continue] + rest;
        if D.Clean(all, |all|) {
          assert forall i | 0 <= i < |rest| :: rest[i] == all[i + 1];
        }
      case Abort => assert Verdicts(chain, headers)[0] == D.Verdict.Abort;
      case Broken => assert Verdicts(chain, headers)[0] == D.Verdict.Broken;
    }
  }

  /** A middleware that continues is followed by the verdicts of the rest on the headers it returned. */
  lemma VerdictsOfOne<H>(m: H -> Flow<H>, rest: seq<H -> Flow<H>>, headers: H)
    ensures Verdicts([], headers) == []
    ensures Verdicts([m] + rest, headers) ==
      match m(headers) {
        case Continue(next) => [D.Verdict.Continue] + Verdicts(rest, next)
        case Abort => [D.Verdict.Abort]
        case Broken => [D.Verdict.Broken]
      }
  {
    assert ([m] + rest)[1..] == rest;
  }

  /** Running a chain in two parts is running the second part on what the first returned. */
  lemma {:induction false} FoldSplits<H>(first: seq<H -> Flow<H>>, second: seq<H -> Flow<H>>, headers: H)
    ensures Fold(first + second, headers) ==
      match Fold(first, headers) { case Some(next) => Fold(second, next) case None => None }
    decreases |first|
  {
    if first == [] {
      assert first + second == second;
    } else {
      assert (first + second)[0] == first[0] && (first + second)[1..] == first[1..] + second;
      match first[0](headers)
      case Continue(next) => FoldSplits(first[1..], second, next);
      case _ =>
    }
  }

  /** The worker's side of the shared request table and of the signal channel. */
  class Worker {
    var table: set<D.Key>
    var signals: seq<(D.Key, D.State)>

    constructor ()
      ensures table == {} && signals == []
    {
      table, signals := {}, [];
    }

    /**
     * One job: the chain is run on the headers; a refusal sends one rejection and touches no entry, success
     * leaves an entry (unless storing fails) and sends one readiness.
     */
    method Serve<H>(k: D.Key, chain: seq<H -> Flow<H>>, headers: H, stored: bool) returns (final: Option<H>)
      modifies this
      ensures final == Fold(chain, headers)
      ensures signals == old(signals) + [(k, if final.Some? then D.Ready else D.Rejected)]
      ensures table == if final.Some? && stored then old(table) + {k} else old(table)
    {
      var current := headers;
      for i := 0 to |chain|
        invariant Fold(chain, headers) == Fold(chain[i..], current)
        invariant signals == old(signals) && table == old(table)
      {
        match chain[i](current)
        case Continue(next) =>
          assert chain[i..][1..] == chain[i + 1..];
          current := next;
        case _ =>
          signals := signals + [(k, D.Rejected)];
          return None;
      }
      if k !in table && stored {
        table := table + {k};
      }
      signals := signals + [(k, D.Ready)];
      final := Some(current);
    }
  }
}
