/** `infinite_chai()`: a generator that never runs out, yielding numbered refills. */
module InfiniteGenerator {
  import Strings

  /** The value yielded for the `k`-th refill. */
  function Refill(k: nat): (r: string)
    ensures |r| > 8 && r[..8] == "Refill #" && r[8..] == Strings.NatToString(k)
  {
    "Refill #" + Strings.NatToString(k)
  }

  /** Different refills are labelled differently. */
  lemma RefillInjective(j: nat, k: nat)
    ensures Refill(j) == Refill(k) <==> j == k
  {
    if Refill(j) == Refill(k) {
      assert Strings.NatToString(j) == Refill(j)[8..];
      Strings.ParseNatToString(j);
      Strings.ParseNatToString(k);
    }
  }

  /** A generator object: its suspended frame holds only `count`, the next refill number. */
  class InfiniteChai {
    var count: nat

    constructor ()
      ensures count == 1
    {
      count := 1;
    }

    /** `next(gen)`: always yields, the refill numbered `count`, and moves on by one. */
    method Next() returns (r: string)
      modifies this
      ensures r == Refill(old(count)) && count == old(count) + 1
    {
      r := Refill(count);
      count := count + 1;
    }
  }

  /** Drawing `n` values in a row gives the next `n` refills in order. */
  method Draw(gen: InfiniteChai, n: nat) returns (values: seq<string>)
    modifies gen
    ensures gen.count == old(gen.count) + n
    ensures |values| == n && forall i :: 0 <= i < n ==> values[i] == Refill(old(gen.count) + i)
  {
    values := [];
    for k := 0 to n
      invariant gen.count == old(gen.count) + k
      invariant |values| == k && forall i :: 0 <= i < k ==> values[i] == Refill(old(gen.count) + i)
    {
      var v := gen.Next();
      values := values + [v];
    }
  }

  /** The `k`-th value drawn from a fresh generator is refill `k`, and two generators count
      independently: `user2` starts at refill 1 after `refill` has reached 6. */
  method TwoGenerators() returns (first: seq<string>, sixth: string, second: seq<string>)
    ensures |first| == 5 && (forall i :: 0 <= i < 5 ==> first[i] == Refill(i + 1)) && sixth == Refill(6)
    ensures |second| == 6 && forall i :: 0 <= i < 6 ==> second[i] == Refill(i + 1)
  {
    var refill := new InfiniteChai();
    var user2 := new InfiniteChai();
    first := Draw(refill, 5);
    sixth := refill.Next();
    second := Draw(user2, 6);
  }
}
