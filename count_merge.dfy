/** `results.forEach((r) => (counts[r.id] = r.count))`: per-record counts merged into one map. */
module CountMerge {

  datatype IdCount = IdCount(id: int, count: int)

  /** No later result has the same id as result `i`. */
  predicate LastFor(results: seq<IdCount>, i: int, upTo: int)
    requires 0 <= i < upTo <= |results|
  {
    forall j :: i < j < upTo ==> results[j].id != results[i].id
  }

  method MergeCounts(results: seq<IdCount>) returns (m: map<int, int>)
    ensures m.Keys == set i | 0 <= i < |results| :: results[i].id
    ensures forall i :: 0 <= i < |results| && LastFor(results, i, |results|) ==> m[results[i].id] == results[i].count
  {
    m := map[];
    var k := 0;
    while k < |results|
      invariant 0 <= k <= |results|
      invariant m.Keys == set i | 0 <= i < k :: results[i].id
      invariant forall i :: 0 <= i < k && LastFor(results, i, k) ==> m[results[i].id] == results[i].count
    {
      m := m[results[k].id := results[k].count];
      k := k + 1;
    }
  }
}
