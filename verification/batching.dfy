/**
 * Splitting `total` packages into shipments of at most `per` packages, as every shipment
 * workflow does it: `(total + per - 1) // per` shipments, shipment `i` holding the packages
 * numbered `i * per + 1` through `min((i + 1) * per, total)`.
 */
module Batching {

  /** Python's `a // b`: the quotient rounded toward negative infinity. */
  function FloorDiv(a: int, b: int): (q: int)
    requires b != 0
    ensures b > 0 ==> q * b <= a < q * b + b
    ensures b < 0 ==> q * b >= a > q * b + b
  {
    if b > 0 then a / b else (-a) / (-b)
  }

  /** Python's `min(a, b)`. */
  function Min(a: int, b: int): (m: int)
    ensures m <= a && m <= b && (m == a || m == b)
  {
    if a <= b then a else b
  }

  /** `num_shipments = (total_packages + packages_per_shipment - 1) // packages_per_shipment`. */
  function ShipmentCount(total: int, per: int): int
    requires per != 0
  {
    FloorDiv(total + per - 1, per)
  }

  /** One shipment's share of the packages: the first package number and how many follow. */
  datatype Batch = Batch(start: int, count: int)

  /** The loop body for shipment `i`: `start_idx` and `end_idx - start_idx + 1`. */
  function BatchAt(i: int, total: int, per: int): Batch {
    var start := i * per + 1;
    var end := Min((i + 1) * per, total);
    Batch(start, end - start + 1)
  }

  /** The shipments the loop `for i in range(num_shipments)` visits, in order. */
  function Plan(total: int, per: int): seq<Batch>
    requires per != 0
  {
    var n := ShipmentCount(total, per);
    seq(if n < 0 then 0 else n, i requires 0 <= i => BatchAt(i, total, per))
  }

  /** The number of packages a sequence of shipments holds. */
  function Sum(bs: seq<Batch>): int
    decreases |bs|
  {
    if |bs| == 0 then 0 else bs[0].count + Sum(bs[1..])
  }

  /** Each shipment starts where the one before it ended, the first one at `first`. */
  predicate Consecutive(bs: seq<Batch>, first: int) {
    && (|bs| > 0 ==> bs[0].start == first)
    && forall i :: 0 <= i < |bs| - 1 ==> bs[i + 1].start == bs[i].start + bs[i].count
  }

  /** The shipment count is `ceil(total / per)`: enough room for every package, and no spare shipment. */
  lemma CountIsCeiling(total: int, per: int)
    requires total >= 0 && per > 0
    ensures var n := ShipmentCount(total, per);
            n >= 0 && n * per >= total && (n - 1) * per < total
  {
    var n := ShipmentCount(total, per);
    assert n * per <= total + per - 1 < n * per + per;
    assert (n - 1) * per == n * per - per;
    assert (n + 1) * per == n * per + per;
  }

  /** No package is left over: no shipment count is ever negative for a nonnegative total. */
  lemma PlanLength(total: int, per: int)
    requires total >= 0 && per > 0
    ensures |Plan(total, per)| == ShipmentCount(total, per)
    ensures |Plan(total, per)| == 0 <==> total == 0
  {
    CountIsCeiling(total, per);
  }

  /** Every shipment holds at least one and at most `per` packages. */
  lemma BatchSize(total: int, per: int, i: int)
    requires total >= 0 && per > 0 && 0 <= i < |Plan(total, per)|
    ensures 1 <= Plan(total, per)[i].count <= per
  {
    CountIsCeiling(total, per);
    var n := ShipmentCount(total, per);
    MulMonotone(i, n - 1, per);
    assert (i + 1) * per == i * per + per;
  }

  /** Shipment `i + 1` starts right after shipment `i`, and the last one ends at package `total`. */
  lemma PlanConsecutive(total: int, per: int)
    requires total >= 0 && per > 0
    ensures Consecutive(Plan(total, per), 1)
    ensures var bs := Plan(total, per);
            |bs| > 0 ==> bs[|bs| - 1].start + bs[|bs| - 1].count == total + 1
  {
    var bs := Plan(total, per);
    CountIsCeiling(total, per);
    var n := ShipmentCount(total, per);
    forall i | 0 <= i < |bs| - 1
      ensures bs[i + 1].start == bs[i].start + bs[i].count
    {
      MulMonotone(i + 1, n - 1, per);
      assert (i + 1) * per == i * per + per;
    }
    if |bs| > 0 {
      assert n * per >= total;
    }
  }

  /** Consecutive shipments from `first` hold exactly the packages up to where the last one ends. */
  lemma {:induction false} ConsecutiveSum(bs: seq<Batch>, first: int)
    requires |bs| > 0 && Consecutive(bs, first)
    ensures Sum(bs) == bs[|bs| - 1].start + bs[|bs| - 1].count - first
    decreases |bs|
  {
    if |bs| > 1 {
      var rest := bs[1..];
      forall i | 0 <= i < |rest| - 1
        ensures rest[i + 1].start == rest[i].start + rest[i].count
      {
        assert rest[i] == bs[i + 1] && rest[i + 1] == bs[i + 2];
      }
      ConsecutiveSum(rest, bs[1].start);
      assert rest[|rest| - 1] == bs[|bs| - 1];
    }
  }

  /** The shipments' package counts add up to `total` (20 + 10 for 30 packages at 20 per shipment). */
  lemma PlanSum(total: int, per: int)
    requires total >= 0 && per > 0
    ensures Sum(Plan(total, per)) == total
  {
    PlanConsecutive(total, per);
    if |Plan(total, per)| > 0 {
      ConsecutiveSum(Plan(total, per), 1);
    }
  }

  lemma MulMonotone(a: int, b: int, c: int)
    requires a <= b && c >= 0
    ensures a * c <= b * c
  {
  }

  /** Thirty packages at twenty per shipment: two shipments, of twenty and ten, the second from package 21. */
  lemma ThirtyAtTwenty()
    ensures ShipmentCount(30, 20) == 2
    ensures Plan(30, 20) == [Batch(1, 20), Batch(21, 10)]
  {
    assert Plan(30, 20)[0] == Batch(1, 20);
    assert Plan(30, 20)[1] == Batch(21, 10);
  }
}
