/** The agency's revenue bar chart: each bar's height is its revenue as a percentage
    of the largest revenue. */
module RevenueChart {
  import opened Wrappers

  datatype Item = Item(month: string, revenue: real)

  /** `Math.max(...revenues)` for a non-empty list. */
  function MaxRevenue(data: seq<Item>): (m: real)
    requires |data| > 0
    ensures forall i :: 0 <= i < |data| ==> data[i].revenue <= m
    ensures exists i :: 0 <= i < |data| && data[i].revenue == m
  {
    if |data| == 1 then data[0].revenue
    else
      var rest := MaxRevenue(data[1..]);
      assert forall i :: 1 <= i < |data| ==> data[i] == data[1..][i - 1];
      if data[0].revenue >= rest then data[0].revenue else rest
  }

  /** `(item.revenue / maxRevenue) * 100`: a revenue between 0 and the maximum
      draws a bar between 0 and 100, the maximum itself a full bar. */
  function Height(revenue: real, max: real): (r: real)
    requires max != 0.0
    ensures 0.0 <= revenue <= max ==> 0.0 <= r <= 100.0
    ensures revenue == max ==> r == 100.0
  {
    assert 0.0 <= revenue <= max ==> revenue / max <= 1.0;
    assert max / max == 1.0;
    revenue / max * 100.0
  }

  /** The height of each item, in order. */
  function HeightsBy(data: seq<Item>, max: real): (r: seq<real>)
    requires max != 0.0
    ensures |r| == |data|
    ensures forall i :: 0 <= i < |data| ==> r[i] == Height(data[i].revenue, max)
  {
    if data == [] then [] else [Height(data[0].revenue, max)] + HeightsBy(data[1..], max)
  }

  /** The bar heights, one per item in order. No data draws no bars; a largest
      revenue of 0 makes every division undefined (NaN or an infinity), so there are
      no usable heights. */
  function Heights(data: seq<Item>): (r: Option<seq<real>>)
    ensures data == [] ==> r == Some([])
    ensures data != [] && MaxRevenue(data) == 0.0 ==> r == None
    ensures data != [] && MaxRevenue(data) != 0.0 ==> r == Some(HeightsBy(data, MaxRevenue(data)))
  {
    if data == [] then Some([])
    else if MaxRevenue(data) == 0.0 then None
    else Some(HeightsBy(data, MaxRevenue(data)))
  }

  /** With non-negative revenues and a positive maximum there is one bar per item
      and every bar lies in [0, 100]. */
  lemma HeightsInRange(data: seq<Item>)
    requires data != [] && forall i :: 0 <= i < |data| ==> data[i].revenue >= 0.0
    requires MaxRevenue(data) > 0.0
    ensures Heights(data).Some? && |Heights(data).value| == |data|
    ensures forall i :: 0 <= i < |data| ==> 0.0 <= Heights(data).value[i] <= 100.0
  {
    var m := MaxRevenue(data);
    var h := HeightsBy(data, m);
    assert Heights(data).value == h;
    assert forall i :: 0 <= i < |data| ==> 0.0 <= h[i] <= 100.0;
  }

  /** The items with the largest revenue reach the top of the chart. */
  lemma MaxBarsFull(data: seq<Item>)
    requires data != [] && MaxRevenue(data) != 0.0
    ensures forall i :: 0 <= i < |data| && data[i].revenue == MaxRevenue(data) ==> Heights(data).value[i] == 100.0
  {
    var m := MaxRevenue(data);
    var h := HeightsBy(data, m);
    assert Heights(data).value == h;
    assert forall i :: 0 <= i < |data| && data[i].revenue == m ==> h[i] == 100.0;
  }

  /** When item `k` has the largest revenue, a positive one, and no revenue is
      negative, that revenue is the maximum, item `k` fills its bar and every bar
      lies in [0, 100]. */
  lemma PeakChart(data: seq<Item>, k: nat)
    requires k < |data| && data[k].revenue > 0.0
    requires forall i :: 0 <= i < |data| ==> 0.0 <= data[i].revenue <= data[k].revenue
    ensures MaxRevenue(data) == data[k].revenue
    ensures Heights(data).Some? && |Heights(data).value| == |data|
    ensures Heights(data).value[k] == 100.0
    ensures forall i :: 0 <= i < |data| ==> 0.0 <= Heights(data).value[i] <= 100.0
  {
    var m := MaxRevenue(data);
    var j :| 0 <= j < |data| && data[j].revenue == m;
    HeightsInRange(data);
    MaxBarsFull(data);
  }

  /** With a positive maximum the item with the smallest revenue draws the lowest
      bar. */
  lemma LowestBar(data: seq<Item>, k: nat)
    requires data != [] && MaxRevenue(data) > 0.0
    requires k < |data| && forall i :: 0 <= i < |data| ==> data[k].revenue <= data[i].revenue
    ensures forall i :: 0 <= i < |data| ==> Heights(data).value[k] <= Heights(data).value[i]
  {
    forall i | 0 <= i < |data|
      ensures Heights(data).value[k] <= Heights(data).value[i]
    {
      HeightsKeepOrder(data, k, i);
    }
  }

  /** With a positive maximum the bars keep the order of the revenues: a larger
      revenue never draws a lower bar, and equal revenues draw equal bars. */
  lemma HeightsKeepOrder(data: seq<Item>, i: nat, j: nat)
    requires data != [] && MaxRevenue(data) > 0.0
    requires i < |data| && j < |data|
    ensures data[i].revenue <= data[j].revenue ==> Heights(data).value[i] <= Heights(data).value[j]
    ensures data[i].revenue == data[j].revenue ==> Heights(data).value[i] == Heights(data).value[j]
  {
    HeightMonotone(data[i].revenue, data[j].revenue, MaxRevenue(data));
  }

  lemma HeightMonotone(a: real, b: real, m: real)
    requires m > 0.0
    ensures a <= b ==> Height(a, m) <= Height(b, m)
  {
    if a <= b {
      assert a / m <= b / m;
    }
  }
}
