/**
 * The linear argmin idiom the source repeats in several places: scan the
 * candidates in order, keep the first one whose distance is strictly smaller
 * than the best so far, start from index 0.
 */
module Search {

  /** Index of the first smallest value; 0 for an empty sequence. */
  function FirstMin(ds: seq<real>): (k: nat)
    ensures |ds| == 0 ==> k == 0
    ensures |ds| > 0 ==> k < |ds|
    ensures forall j :: 0 <= j < |ds| ==> ds[k] <= ds[j]
    ensures forall j :: 0 <= j < k ==> ds[k] < ds[j]
  {
    if |ds| <= 1 then 0
    else
      var k := FirstMin(ds[..|ds| - 1]);
      if ds[|ds| - 1] < ds[k] then |ds| - 1 else k
  }

  /** The scan with a running minimum and a running index. */
  method ArgMin(ds: seq<real>) returns (k: nat)
    ensures k == FirstMin(ds)
  {
    k := 0;
    if |ds| == 0 {
      return;
    }
    var i := 1;
    while i < |ds|
      invariant 1 <= i <= |ds| && k == FirstMin(ds[..i])
    {
      assert ds[..i + 1][..i] == ds[..i];
      if ds[i] < ds[k] {
        k := i;
      }
      i := i + 1;
    }
    assert ds[..|ds|] == ds;
  }
}
