/** Shared vocabulary: bytes, optional values, and the flattening of packet lists. */
module Basics {

  type byte = b: int | 0 <= b < 256

  type Bytes = seq<byte>

  /** The largest value a 64-bit `usize` or `u64` can hold, plus one. */
  const WORD_LIMIT: nat := 0x1_0000_0000_0000_0000

  datatype Option<+T> = None | Some(value: T)

  function Min(a: nat, b: nat): nat {
    if a <= b then a else b
  }

  /** The concatenation of a list of byte strings, in order. */
  function Flatten(packets: seq<Bytes>): Bytes {
    if packets == [] then [] else packets[0] + Flatten(packets[1..])
  }

  lemma {:induction false} FlattenConcat(a: seq<Bytes>, b: seq<Bytes>)
    ensures Flatten(a + b) == Flatten(a) + Flatten(b)
  {
    if a == [] {
      assert a + b == b;
    } else {
      assert (a + b)[1..] == a[1..] + b;
      FlattenConcat(a[1..], b);
    }
  }

  lemma FlattenSnoc(a: seq<Bytes>, last: Bytes)
    ensures Flatten(a + [last]) == Flatten(a) + last
  {
    FlattenConcat(a, [last]);
    assert [last][1..] == [];
    assert Flatten([last]) == last + Flatten([]);
  }

  // ---------- quotients ----------

  lemma Distributes(a: int, b: int, d: int)
    ensures (a + b) * d == a * d + b * d
  {
  }

  lemma AtLeastOnce(a: nat, d: nat)
    requires a > 0
    ensures a * d >= d
  {
    Distributes(a - 1, 1, d);
    assert (a - 1) * d >= 0;
  }

  /** Quotient and remainder are unique. */
  lemma QuotientIs(n: nat, d: nat, q: nat, rest: nat)
    requires d > 0 && n == q * d + rest && rest < d
    ensures n / d == q && n % d == rest
  {
    var (other, left) := (n / d, n % d);
    assert n == other * d + left && left < d;
    if other < q {
      Distributes(other, q - other, d);
      AtLeastOnce(q - other, d);
    } else if other > q {
      Distributes(q, other - q, d);
      AtLeastOnce(other - q, d);
    }
  }
}
