/**
 * The UPS workflow the shipment tests build for themselves. It uses the same request template
 * with a placeholder for every party detail, but the packages are written straight into the
 * template's `Package` entry instead of being spliced through `{packages}`, and the context holds
 * only the two labels and the five party dicts.
 */
module UpsTests {
  import opened Wrappers
  import opened Values
  import opened Paths
  import opened Render
  import opened RenderFacts
  import opened RenderTree
  import opened Batching
  import opened Packages
  import opened Shipments
  import opened UpsRequest
  import opened UpsExample

  /** The two labels the tests' context starts with; the packages are not among them. */
  function TestLabels(ctx: string, desc: string): seq<Field> {
    [Field("customer_context", Str(ctx)), Field("shipment_description", Str(desc))]
  }

  /** The tests' context: the two labels followed by `**shipper_data` .. `**service_data`. */
  function TestContext(ctx: string, desc: string, p: Parties): seq<Field> {
    WithParties(TestLabels(ctx, desc), p)
  }

  /**
   * `create_shipment_context(...)` as the tests write it: the context, and the request template
   * with `Package` set to the packages.
   */
  function TestShipmentContext(ctx: string, desc: string, packages: seq<Value>, p: Parties): (seq<Field>, Value) {
    (TestContext(ctx, desc, p), PartiesTemplate(List(packages)))
  }

  /** `create_ups_shipment(...)` as the tests write it: that template rendered with that context. */
  function TestUpsShipment(ctx: string, desc: string, packages: seq<Value>, p: Parties, eval: Evaluator)
    : Result<Value, RenderError>
  {
    RenderData(TestShipmentContext(ctx, desc, packages, p).1, TestShipmentContext(ctx, desc, packages, p).0, Keep, eval)
  }

  /** No party dict rebinds either label. */
  predicate KeepsTestLabels(p: Parties) {
    PartiesLeave(p, "customer_context") && PartiesLeave(p, "shipment_description")
  }

  /** Rendering never fails, whatever the party dicts hold, as long as no package holds a query. */
  lemma TestShipmentSucceeds(ctx: string, desc: string, packages: seq<Value>, p: Parties, eval: Evaluator)
    requires forall k :: 0 <= k < |packages| ==> QueryFree(packages[k])
    ensures TestUpsShipment(ctx, desc, packages, p, eval).Success?
  {
    TemplateQueryFree(List(packages));
    LenientTreeSucceeds(PartiesTemplate(List(packages)), TestContext(ctx, desc, p), Keep, eval);
  }

  /**
   * The packages are part of the template, so they are rendered like the rest of it: the request's
   * `Package` entry is what rendering the package list gives.
   */
  lemma TestPackagesRendered(ctx: string, desc: string, packages: seq<Value>, p: Parties, eval: Evaluator)
    requires TestUpsShipment(ctx, desc, packages, p, eval).Success?
    ensures var r := TestUpsShipment(ctx, desc, packages, p, eval).value;
            && Walk(r, PackagePath).Some?
            && RenderData(List(packages), TestContext(ctx, desc, p), Keep, eval) == Success(Walk(r, PackagePath).value)
  {
    var r := TestUpsShipment(ctx, desc, packages, p, eval).value;
    PackageAt(RequestTemplate, Str(Braced("shipment_description")), ShipperPlaceholders, ShipToPlaceholders,
              ShipFromPlaceholders, PaymentPlaceholders, ServicePlaceholders, List(packages), LabelSpecification);
    RenderedWalk(PartiesTemplate(List(packages)), r, PackagePath, TestContext(ctx, desc, p), Keep, eval);
  }

  /** Unless a party dict rebinds them, the context binds the two labels as given. */
  lemma TestLabelBindings(ctx: string, desc: string, p: Parties)
    requires KeepsTestLabels(p)
    ensures var c := TestContext(ctx, desc, p);
            Get(c, "customer_context") == Some(Str(ctx)) && Get(c, "shipment_description") == Some(Str(desc))
  {
    var base := TestLabels(ctx, desc);
    PartiesOver(base, p, "customer_context");
    PartiesOver(base, p, "shipment_description");
    GetAt(base, 0, "customer_context");
    GetAt(base, 1, "shipment_description");
  }

  /**
   * With packages free of placeholders and party dicts that leave the labels alone, the request
   * carries the customer context, the description and exactly the packages passed in.
   */
  lemma TestShipmentSummary(ctx: string, desc: string, packages: seq<Value>, p: Parties, eval: Evaluator)
    requires forall k :: 0 <= k < |packages| ==> PlainTree(packages[k])
    requires KeepsTestLabels(p)
    ensures TestUpsShipment(ctx, desc, packages, p, eval).Success?
    ensures Summary(TestUpsShipment(ctx, desc, packages, p, eval).value) == Some(Shipment(ctx, desc, packages))
  {
    var c := TestContext(ctx, desc, p);
    var t := PartiesTemplate(List(packages));
    forall k | 0 <= k < |packages|
      ensures QueryFree(packages[k])
    {
      PlainIsQueryFree(packages[k]);
    }
    TestShipmentSucceeds(ctx, desc, packages, p, eval);
    var r := TestUpsShipment(ctx, desc, packages, p, eval).value;
    TestLabelBindings(ctx, desc, p);
    LabelHoles(List(packages));
    LabelsRendered(t, c, eval, r, ctx, desc);
    TestPackagesRendered(ctx, desc, packages, p, eval);
    RenderDataIdentity(List(packages), c, Keep, eval);
  }

  /** With the default party dicts, shipper, recipient and ship-from party are all in the Netherlands. */
  lemma TestShipmentDutch(ctx: string, desc: string, packages: seq<Value>, p: Parties, eval: Evaluator, r: Value)
    requires p == DefaultParties && TestUpsShipment(ctx, desc, packages, p, eval) == Success(r)
    ensures AllPartiesIn(r, "NL")
  {
    DutchParties(List(packages), TestLabels(ctx, desc), eval, r);
  }

  /**
   * `test_create_ups_shipment`: `n` packages from `Package 1`, rendered with party dicts that leave
   * the labels alone (as the default ones do), give a request holding exactly those `n` packages,
   * the `k`-th identified as `Package k+1`.
   */
  lemma SingleShipmentCase(ctx: string, desc: string, n: nat, p: Parties, eval: Evaluator)
    requires KeepsTestLabels(p)
    ensures var r := TestUpsShipment(ctx, desc, PackagesData(n, 1, StandardDimensions), p, eval);
            && r.Success?
            && Summary(r.value) == Some(Shipment(ctx, desc, PackagesData(n, 1, StandardDimensions)))
  {
    PackagesPlain(n, 1);
    TestShipmentSummary(ctx, desc, PackagesData(n, 1, StandardDimensions), p, eval);
  }

  /** The default party dicts leave the labels alone. */
  lemma DefaultsKeepTestLabels()
    ensures KeepsTestLabels(DefaultParties)
  {
    DefaultsKeepLabels();
  }

  /** Every planned package is measured in centimetres and weighed in kilograms. */
  lemma PlannedPackageUnits(ctx: string, desc: string, total: int, per: int, i: int, k: int)
    requires per != 0 && 0 <= k < |ShipmentAt(ctx, desc, total, per, i).packages|
    ensures var package := ShipmentAt(ctx, desc, total, per, i).packages[k];
            && Walk(package, ["Dimensions", "UnitOfMeasurement", "Code"]) == Some(Str("CM"))
            && Walk(package, ["PackageWeight", "UnitOfMeasurement", "Code"]) == Some(Str("KG"))
  {
    var b := BatchAt(i, total, per);
    PackageUnits(b.start + k, StandardDimensions);
  }

  /** Requests rendered for the plan's shipments tell those shipments back. */
  lemma TestShipmentSummaries(ctx: string, desc: string, total: int, per: int, p: Parties, shipments: seq<Value>,
                              eval: Evaluator)
    requires per != 0 && KeepsTestLabels(p)
    requires forall k :: 0 <= k < |shipments| ==>
               var s := ShipmentAt(ctx, desc, total, per, k);
               TestUpsShipment(s.customerContext, s.description, s.packages, p, eval) == Success(shipments[k])
    ensures forall k :: 0 <= k < |shipments| ==> Summary(shipments[k]) == Some(ShipmentAt(ctx, desc, total, per, k))
  {
    forall k | 0 <= k < |shipments|
      ensures Summary(shipments[k]) == Some(ShipmentAt(ctx, desc, total, per, k))
    {
      TestSummaryAt(ctx, desc, total, per, k, p, eval, shipments[k]);
    }
  }

  lemma TestSummaryAt(ctx: string, desc: string, total: int, per: int, k: int, p: Parties, eval: Evaluator, r: Value)
    requires per != 0 && KeepsTestLabels(p)
    requires var s := ShipmentAt(ctx, desc, total, per, k);
             TestUpsShipment(s.customerContext, s.description, s.packages, p, eval) == Success(r)
    ensures Summary(r) == Some(ShipmentAt(ctx, desc, total, per, k))
  {
    var s := ShipmentAt(ctx, desc, total, per, k);
    var b := BatchAt(k, total, per);
    PackagesPlain(b.count, b.start);
    TestShipmentSummary(s.customerContext, s.description, s.packages, p, eval);
  }

  /** Requests rendered with the default party dicts have every party in the Netherlands. */
  lemma TestShipmentsDutch(ctx: string, desc: string, total: int, per: int, p: Parties, shipments: seq<Value>,
                           eval: Evaluator)
    requires per != 0 && p == DefaultParties
    requires forall k :: 0 <= k < |shipments| ==>
               var s := ShipmentAt(ctx, desc, total, per, k);
               TestUpsShipment(s.customerContext, s.description, s.packages, p, eval) == Success(shipments[k])
    ensures forall k :: 0 <= k < |shipments| ==> AllPartiesIn(shipments[k], "NL")
  {
    forall k | 0 <= k < |shipments|
      ensures AllPartiesIn(shipments[k], "NL")
    {
      var s := ShipmentAt(ctx, desc, total, per, k);
      TestShipmentDutch(s.customerContext, s.description, s.packages, p, eval, shipments[k]);
    }
  }

  /**
   * `create_multiple_shipments` as the tests write it: the party dicts defaulted, then one
   * rendered request per shipment of the plan. Each request is the template with that shipment's
   * packages rendered with its labels and the chosen party dicts; when those leave the labels
   * alone (as the defaults do), each request tells its planned shipment back, and with the
   * defaults every party is Dutch. A zero shipment size is Python's `ZeroDivisionError`.
   */
  method TestMultipleShipments(ctx: string, desc: string, total: int, per: int, shipper: Option<seq<Field>>,
                               shipTo: Option<seq<Field>>, shipFrom: Option<seq<Field>>, payment: Option<seq<Field>>,
                               service: Option<seq<Field>>, eval: Evaluator)
    returns (r: Result<seq<Value>, BatchError>)
    ensures r.Failure? <==> per == 0
    ensures r.Success? ==> |r.value| == |Plan(total, per)|
    ensures r.Success? ==> forall i :: 0 <= i < |r.value| ==>
              var s := ShipmentAt(ctx, desc, total, per, i);
              TestUpsShipment(s.customerContext, s.description, s.packages,
                              ChosenParties(shipper, shipTo, shipFrom, payment, service), eval) == Success(r.value[i])
    ensures r.Success? && KeepsTestLabels(ChosenParties(shipper, shipTo, shipFrom, payment, service)) ==>
              forall i :: 0 <= i < |r.value| ==> Summary(r.value[i]) == Some(ShipmentAt(ctx, desc, total, per, i))
    ensures r.Success? && shipper.None? && shipTo.None? && shipFrom.None? && payment.None? && service.None? ==>
              forall i :: 0 <= i < |r.value| ==>
                Summary(r.value[i]) == Some(ShipmentAt(ctx, desc, total, per, i)) && AllPartiesIn(r.value[i], "NL")
  {
    var parties := ChosenParties(shipper, shipTo, shipFrom, payment, service);
    if per == 0 {
      return Failure(ZeroDivision);
    }
    var shipments := TestRenderShipments(ctx, desc, total, per, parties, eval);
    if shipper.None? && shipTo.None? && shipFrom.None? && payment.None? && service.None? {
      DefaultsKeepLabels();
      TestShipmentsDutch(ctx, desc, total, per, parties, shipments, eval);
    }
    if KeepsTestLabels(parties) {
      TestShipmentSummaries(ctx, desc, total, per, parties, shipments, eval);
    }
    return Success(shipments);
  }

  /** The loop of the tests' `create_multiple_shipments`: for each shipment of the plan, its packages, labels and request. */
  method TestRenderShipments(ctx: string, desc: string, total: int, per: int, parties: Parties, eval: Evaluator)
    returns (shipments: seq<Value>)
    requires per != 0
    ensures |shipments| == |Plan(total, per)|
    ensures forall k :: 0 <= k < |shipments| ==>
              var s := ShipmentAt(ctx, desc, total, per, k);
              TestUpsShipment(s.customerContext, s.description, s.packages, parties, eval) == Success(shipments[k])
  {
    var n := FloorDiv(total + per - 1, per);
    shipments := [];
    var i := 0;
    while i < n
      invariant 0 <= i <= |Plan(total, per)|
      invariant |shipments| == i
      invariant forall k :: 0 <= k < i ==>
                  var s := ShipmentAt(ctx, desc, total, per, k);
                  TestUpsShipment(s.customerContext, s.description, s.packages, parties, eval) == Success(shipments[k])
    {
      var start := i * per + 1;
      var end := Min((i + 1) * per, total);
      var packages := CreatePackagesData(end - start + 1, start);
      ghost var s := ShipmentAt(ctx, desc, total, per, i);
      PackagesReady(start, end - start + 1);
      TestShipmentSucceeds(s.customerContext, s.description, s.packages, parties, eval);
      var shipment := TestUpsShipment(ContextLabel(ctx, i), DescriptionLabel(desc, i, n), packages, parties, eval);
      shipments := shipments + [shipment.value];
      i := i + 1;
    }
  }

  /** A generated run of packages holds no query. */
  lemma PackagesReady(start: int, n: int)
    ensures forall k :: 0 <= k < |PackagesData(n, start, StandardDimensions)| ==>
              QueryFree(PackagesData(n, start, StandardDimensions)[k])
  {
    PackagesPlain(n, start);
    forall k | 0 <= k < |PackagesData(n, start, StandardDimensions)|
      ensures QueryFree(PackagesData(n, start, StandardDimensions)[k])
    {
      PlainIsQueryFree(PackagesData(n, start, StandardDimensions)[k]);
    }
  }
}
