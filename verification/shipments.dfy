/**
 * The shipment-splitting loop the three UPS workflows share: for each shipment of the batching
 * plan, a customer-context label, a description label and a consecutive run of packages.
 */
module Shipments {
  import opened Wrappers
  import opened Text
  import opened Values
  import opened Batching
  import opened Packages

  /** What the loop hands the payload builder for one shipment. */
  datatype Shipment = Shipment(customerContext: string, description: string, packages: seq<Value>)

  /** `packages_per_shipment == 0` makes the floor division raise `ZeroDivisionError`. */
  datatype BatchError = ZeroDivision

  /** `f"{customer_context}-{i+1}"`. */
  function ContextLabel(ctx: string, i: int): string {
    ctx + "-" + IntToString(i + 1)
  }

  /** `f"{shipment_description} (Shipment {i+1} of {num_shipments})"`. */
  function DescriptionLabel(desc: string, i: int, n: int): string {
    desc + " (Shipment " + IntToString(i + 1) + " of " + IntToString(n) + ")"
  }

  /** Shipment `i` of the plan for `total` packages at `per` per shipment. */
  function ShipmentAt(ctx: string, desc: string, total: int, per: int, i: int): Shipment
    requires per != 0
  {
    var b := BatchAt(i, total, per);
    Shipment(ContextLabel(ctx, i), DescriptionLabel(desc, i, ShipmentCount(total, per)),
             PackagesData(b.count, b.start, StandardDimensions))
  }

  /** The packages of a sequence of shipments, in order, one list after the other. */
  function AllPackages(ss: seq<Shipment>): seq<Value>
    decreases |ss|
  {
    if |ss| == 0 then [] else ss[0].packages + AllPackages(ss[1..])
  }

  /** The plan's shipments, as the loop produces them. */
  function Shipments(ctx: string, desc: string, total: int, per: int): seq<Shipment>
    requires per != 0
  {
    seq(|Plan(total, per)|, i requires 0 <= i < |Plan(total, per)| => ShipmentAt(ctx, desc, total, per, i))
  }

  /**
   * Runs of packages cut at consecutive batches are, laid end to end, one run from the first
   * batch's start, as long as the batches hold.
   */
  lemma {:induction false} ConsecutiveRuns(ss: seq<Shipment>, bs: seq<Batch>, first: int)
    requires |ss| == |bs| && Consecutive(bs, first)
    requires forall i :: 0 <= i < |bs| ==> bs[i].count >= 0
    requires forall i :: 0 <= i < |bs| ==> ss[i].packages == PackagesData(bs[i].count, bs[i].start, StandardDimensions)
    ensures Sum(bs) >= 0
    ensures AllPackages(ss) == PackagesData(Sum(bs), first, StandardDimensions)
    decreases |bs|
  {
    if |bs| > 0 {
      var next := first + bs[0].count;
      assert Consecutive(bs[1..], next) by {
        assert forall i :: 0 <= i < |bs| - 1 ==> bs[1..][i] == bs[i + 1];
      }
      ConsecutiveRuns(ss[1..], bs[1..], next);
      PackagesAppend(bs[0].count, Sum(bs[1..]), first, StandardDimensions);
    }
  }

  /**
   * Across all shipments the packages are `Package 1` .. `Package total`, each exactly once and
   * in order: the batching loses none, repeats none and keeps the numbering consecutive.
   */
  lemma AllPackagesInOrder(ctx: string, desc: string, total: int, per: int)
    requires total >= 0 && per > 0
    ensures AllPackages(Shipments(ctx, desc, total, per)) == PackagesData(total, 1, StandardDimensions)
  {
    var bs := Plan(total, per);
    PlanConsecutive(total, per);
    PlanSum(total, per);
    forall i | 0 <= i < |bs|
      ensures bs[i].count >= 0
    {
      BatchSize(total, per, i);
    }
    ConsecutiveRuns(Shipments(ctx, desc, total, per), bs, 1);
  }

  /** Each shipment carries between one and `per` packages. */
  lemma ShipmentSizes(ctx: string, desc: string, total: int, per: int, i: int)
    requires total >= 0 && per > 0 && 0 <= i < |Plan(total, per)|
    ensures 1 <= |ShipmentAt(ctx, desc, total, per, i).packages| <= per
  {
    BatchSize(total, per, i);
  }

  /** Shipment `i` starts at package `i * per + 1`. */
  lemma ShipmentStart(ctx: string, desc: string, total: int, per: int, i: int)
    requires total >= 0 && per > 0 && 0 <= i < |Plan(total, per)|
    ensures var ps := ShipmentAt(ctx, desc, total, per, i).packages;
            |ps| > 0 && ps[0] == PackageData(i * per + 1, StandardDimensions)
  {
    BatchSize(total, per, i);
  }

  /** Different shipments get different customer-context labels. */
  lemma ContextLabelsDistinct(ctx: string, i: int, j: int)
    requires ContextLabel(ctx, i) == ContextLabel(ctx, j)
    ensures i == j
  {
    var p := ctx + "-";
    assert IntToString(i + 1) == ContextLabel(ctx, i)[|p|..];
    assert IntToString(j + 1) == ContextLabel(ctx, j)[|p|..];
    IntToStringInjective(i + 1, j + 1);
  }

  /**
   * Thirty packages at twenty per shipment: two shipments labelled `-1` and `-2`, described as
   * shipment 1 and 2 of 2, with twenty and ten packages, the second from `Package 21`.
   */
  lemma ThirtyAtTwentyShipments(ctx: string, desc: string)
    ensures var ss := Shipments(ctx, desc, 30, 20);
            && |ss| == 2
            && ss[0].customerContext == ctx + "-1" && ss[1].customerContext == ctx + "-2"
            && ss[0].description == desc + " (Shipment 1 of 2)"
            && ss[1].description == desc + " (Shipment 2 of 2)"
            && |ss[0].packages| == 20 && |ss[1].packages| == 10
            && ss[1].packages[0] == PackageData(21, StandardDimensions)
  {
    ThirtyAtTwenty();
    SmallNumbers();
  }

  lemma SmallNumbers()
    ensures IntToString(1) == "1" && IntToString(2) == "2"
  {
  }
}
