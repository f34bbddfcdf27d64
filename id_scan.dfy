/** The linear scans the in-memory gateways run over the ids of their user
    list: `findIndex` / `find` by id, the `reduce` that computes the largest
    id, and `splice(index, 1)`.  Each scan is a loop proved against a
    recursive reference definition whose meaning is stated in its contract. */
module IdScan {

  /** Reference definition of `findIndex(u => u.id === id)`: the first
      position holding `id`, or -1 when there is none. */
  function IndexOf(ids: seq<int>, id: int): (k: int)
    ensures -1 <= k < |ids|
    ensures k >= 0 ==> ids[k] == id && forall j :: 0 <= j < k ==> ids[j] != id
    ensures k == -1 <==> forall j :: 0 <= j < |ids| ==> ids[j] != id
  {
    if |ids| == 0 then -1
    else if ids[0] == id then 0
    else
      var k := IndexOf(ids[1..], id);
      if k == -1 then -1 else k + 1
  }

  /** The scan itself, front to back, stopping at the first match. */
  method FindIndex(ids: seq<int>, id: int) returns (k: int)
    ensures k == IndexOf(ids, id)
  {
    k := 0;
    while k < |ids| && ids[k] != id
      invariant 0 <= k <= |ids|
      invariant forall j :: 0 <= j < k ==> ids[j] != id
    {
      k := k + 1;
    }
    if k == |ids| {
      k := -1;
    }
  }

  function Max(a: int, b: int): int {
    if a < b then b else a
  }

  /** Reference definition of `reduce((max, id) => Math.max(max, id), 0)`,
      folding from the left as `reduce` does: the largest id, or 0. */
  function MaxOrZero(ids: seq<int>): (m: int)
    ensures m >= 0
    ensures forall j :: 0 <= j < |ids| ==> ids[j] <= m
    ensures m == 0 || exists j :: 0 <= j < |ids| && ids[j] == m
  {
    if |ids| == 0 then 0
    else
      var m := MaxOrZero(ids[..|ids| - 1]);
      assert forall j :: 0 <= j < |ids| - 1 ==> ids[..|ids| - 1][j] == ids[j];
      Max(m, ids[|ids| - 1])
  }

  /** The `reduce` loop. */
  method ReduceMax(ids: seq<int>) returns (m: int)
    ensures m == MaxOrZero(ids)
  {
    m := 0;
    var i := 0;
    while i < |ids|
      invariant 0 <= i <= |ids|
      invariant m == MaxOrZero(ids[..i])
    {
      assert ids[..i + 1][..i] == ids[..i];
      m := Max(m, ids[i]);
      i := i + 1;
    }
    assert ids[..i] == ids;
  }

  /** `splice(k, 1)`: drop exactly the element at `k`, keeping the others
      in their order. */
  function RemoveAt<T>(s: seq<T>, k: nat): (r: seq<T>)
    requires k < |s|
    ensures |r| == |s| - 1
    ensures forall j :: 0 <= j < k ==> r[j] == s[j]
    ensures forall j :: k <= j < |r| ==> r[j] == s[j + 1]
    ensures multiset(r) + multiset{s[k]} == multiset(s)
  {
    assert s == s[..k] + [s[k]] + s[k + 1..];
    s[..k] + s[k + 1..]
  }

  /** No id occurs twice. */
  predicate Unique(ids: seq<int>) {
    forall i, j :: 0 <= i < j < |ids| ==> ids[i] != ids[j]
  }

  /** Every id is below `bound`. */
  predicate AllBelow(ids: seq<int>, bound: int) {
    forall i :: 0 <= i < |ids| ==> ids[i] < bound
  }
}
