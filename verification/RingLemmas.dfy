/**
 Lists of slots chained together: appending at the end, taking from the front, storing elsewhere.
 */
module RingLemmas {
  import opened Index
  import opened Queue
  import opened Invariant

  /** Storing into a slot outside the ring leaves the ring linked. */
  lemma StoreOutside(chain: seq<nat>, ring: seq<nat>, x: nat, v: nat)
    requires Linked(chain, ring) && Outside(x, ring) && x < |chain|
    ensures Linked(chain[x := v], ring)
  {}

  /** Linking an outside slot that ends the chain behind the last one. */
  lemma Append(chain: seq<nat>, ring: seq<nat>, x: nat)
    requires Linked(chain, ring) && Distinct(ring) && Outside(x, ring)
    requires x < |chain| && chain[x] == INVALID
    ensures Linked(chain[ring[|ring| - 1] := x], ring + [x])
    ensures Distinct(ring + [x])
  {}

  lemma AppendOutside(ring: seq<nat>, x: nat, y: nat)
    requires Outside(y, ring) && x != y
    ensures Outside(y, ring + [x])
  {}

  /** Giving away the first k slots. */
  lemma Suffix(chain: seq<nat>, ring: seq<nat>, k: nat)
    requires Linked(chain, ring) && Distinct(ring) && 0 < k < |ring|
    ensures Linked(chain, ring[k..]) && Distinct(ring[k..])
    ensures Outside(ring[0], ring[k..]) && Outside(ring[k - 1], ring[k..])
  {
    var r := ring[k..];
    assert r[|r| - 1] == ring[|ring| - 1];
    forall i, j | 0 <= i && j == i + 1 && j < |r|
      ensures chain[r[i]] == r[j]
    {
      assert r[i] == ring[k + i] && r[j] == ring[k + j];
    }
  }

  lemma SuffixOutside(ring: seq<nat>, k: nat, x: nat)
    requires Outside(x, ring) && 0 < k <= |ring|
    ensures Outside(x, ring[k..]) && ring[0] != x && ring[k - 1] != x
  {}

  /** The successor of a slot of the ring. */
  lemma Successor(chain: seq<nat>, ring: seq<nat>, i: nat)
    requires Linked(chain, ring) && Distinct(ring) && i < |ring|
    ensures ring[i] < |chain|
    ensures i + 1 < |ring| ==> chain[ring[i]] == ring[i + 1] && ring[i + 1] < |chain| && ring[i] != ring[i + 1]
    ensures i + 1 == |ring| ==> chain[ring[i]] == INVALID
  {}

  /** Following the chain from a slot of the ring spells out the rest of the ring. */
  lemma {:induction false} FollowRing(chain: seq<nat>, ring: seq<nat>, i: nat, fuel: nat)
    requires Linked(chain, ring) && Distinct(ring) && |chain| <= INVALID && i < |ring| && |ring| - i <= fuel
    ensures Follow(chain, ring[i], fuel) == ring[i..]
    decreases |ring| - i
  {
    Successor(chain, ring, i);
    if i + 1 < |ring| {
      FollowRing(chain, ring, i + 1, fuel - 1);
    }
  }

  /** The chain before the first push, once slot 0 has been made its end. */
  lemma FirstLinked(n: nat)
    requires 3 <= n
    ensures Linked(InitialChain(n)[0 := INVALID], InitialChain(n))
    ensures Distinct(InitialChain(n))
  {}
}
