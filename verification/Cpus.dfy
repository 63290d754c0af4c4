/** Which slot of a per-core table belongs to the core that asks (src/cpus.rs). */
module Cpus {
  import opened Wrappers

  const MPIDR_AFFINITY_MASK: bv64 := 0xff00_ffff_ff

  function Affinity(mpidr: bv64): bv64 { mpidr & MPIDR_AFFINITY_MASK }

  /** The position of the first CPU node whose first id is `affinity`. */
  function IndexOf(ids: seq<bv64>, affinity: bv64): (n: Option<nat>)
    ensures n.Some? ==> n.value < |ids| && ids[n.value] == affinity && affinity !in ids[..n.value]
    ensures n.None? ==> affinity !in ids
  {
    if ids == [] then None
    else if ids[0] == affinity then Some(0)
    else
      match IndexOf(ids[1..], affinity)
      case None => None
      case Some(n) => assert ids[..n + 1] == [ids[0]] + ids[1..][..n]; Some(n + 1)
  }

  /** Registers that differ outside the affinity fields name the same slot, and two cores get the
      same slot only if their affinities are equal. */
  lemma SlotsAreSeparate(ids: seq<bv64>, a: bv64, b: bv64)
    requires IndexOf(ids, Affinity(a)).Some?
    ensures IndexOf(ids, Affinity(a)).value < |ids|
    ensures IndexOf(ids, Affinity(a)) == IndexOf(ids, Affinity(b)) <==> Affinity(a) == Affinity(b)
    ensures IndexOf(ids, Affinity(Affinity(a))) == IndexOf(ids, Affinity(a))
  {
    assert Affinity(Affinity(a)) == Affinity(a);
  }

  /** When no two CPU nodes have the same id, every node's own slot is its position. */
  lemma SlotsAreDense(ids: seq<bv64>, n: nat)
    requires n < |ids| && forall i, j :: 0 <= i < j < |ids| ==> ids[i] != ids[j]
    ensures IndexOf(ids, ids[n]) == Some(n)
  {
    assert ids[n] in ids;
    assert ids[IndexOf(ids, ids[n]).value] == ids[n];
  }
}
