/** Putting ids in ascending order, so that cycles over them are reproducible. */
module SortedIds {

  ghost predicate Ascends(ids: seq<nat>) {
    forall i, j :: 0 <= i < j < |ids| ==> ids[i] < ids[j]
  }

  ghost predicate Enumerates(ids: seq<nat>, of: set<nat>) {
    Ascends(ids) && forall x :: x in ids <==> x in of
  }

  method SortIds(ids: set<nat>) returns (sorted: seq<nat>)
    ensures Enumerates(sorted, ids)
  {
    sorted := [];
    var left := ids;
    while left != {}
      invariant left <= ids && Enumerates(sorted, ids - left)
      decreases |left|
    {
      var x :| x in left;
      var k := 0;
      while k < |sorted| && sorted[k] < x
        invariant 0 <= k <= |sorted|
        invariant forall j :: 0 <= j < k ==> sorted[j] < x
      {
        k := k + 1;
      }
      InsertId(sorted, k, x);
      sorted, left := sorted[..k] + [x] + sorted[k..], left - {x};
    }
  }

  lemma InsertId(sorted: seq<nat>, k: nat, x: nat)
    requires Ascends(sorted) && k <= |sorted| && x !in sorted
    requires forall j :: 0 <= j < k ==> sorted[j] < x
    requires k < |sorted| ==> sorted[k] >= x
    ensures Ascends(sorted[..k] + [x] + sorted[k..])
    ensures forall y :: y in sorted[..k] + [x] + sorted[k..] <==> y == x || y in sorted
  {
    if k < |sorted| {
      assert sorted[k] in sorted;
    }
    assert sorted == sorted[..k] + sorted[k..];
    assert forall j :: k <= j < |sorted| ==> x < sorted[j];
  }
}
