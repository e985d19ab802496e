/** Id allocation shared by the four collections: `1 + max(existing ids)`, or 1
    for an empty collection. */
module Ids {

  /** `Math.max(...ids)` for a non-empty list. */
  function MaxId(ids: seq<nat>): (m: nat)
    requires |ids| > 0
    ensures m in ids
    ensures forall i :: 0 <= i < |ids| ==> ids[i] <= m
  {
    if |ids| == 1 then ids[0]
    else
      var rest := MaxId(ids[1..]);
      if ids[0] >= rest then ids[0] else rest
  }

  /** The id the next inserted record receives. */
  function NextId(ids: seq<nat>): (r: nat)
    ensures r >= 1
    ensures forall i :: 0 <= i < |ids| ==> ids[i] < r
    ensures |ids| == 0 ==> r == 1
    ensures |ids| > 0 ==> r - 1 in ids
  {
    if |ids| == 0 then 1 else MaxId(ids) + 1
  }

  /** No id appears twice. */
  ghost predicate DistinctIds(ids: seq<nat>)
  {
    forall i, j :: 0 <= i < j < |ids| ==> ids[i] != ids[j]
  }

  /** Appending the allocated id keeps the ids distinct. */
  lemma NextIdKeepsDistinct(ids: seq<nat>)
    requires DistinctIds(ids)
    ensures DistinctIds(ids + [NextId(ids)])
  {
  }

  /** Removing one entry keeps the ids distinct. */
  lemma RemoveKeepsDistinct(ids: seq<nat>, k: nat)
    requires DistinctIds(ids) && k < |ids|
    ensures DistinctIds(ids[..k] + ids[k + 1..])
  {
    var r := ids[..k] + ids[k + 1..];
    forall i, j | 0 <= i < j < |r| ensures r[i] != r[j] {
      var i' := if i < k then i else i + 1;
      var j' := if j < k then j else j + 1;
      assert r[i] == ids[i'] && r[j] == ids[j'];
    }
  }
}
