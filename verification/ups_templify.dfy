/**
 * The UPS workflow built on templify: a base request template whose party, service and package
 * entries are whole-leaf placeholders, filled from fixed sub-templates and from packages that
 * are themselves rendered from a package template.
 */
module UpsTemplify {
  import opened Wrappers
  import opened Text
  import opened Values
  import opened Paths
  import opened Render
  import opened RenderFacts
  import opened RenderTree
  import opened Batching
  import opened Packages
  import opened Shipments
  import opened UpsRequest

  /** `SHIPPER_TEMPLATE`, also used as the ship-from party. */
  const ShipperTemplate: Value :=
    Obj([Field("Name", Str("Company BV")), Field("AttentionName", Str("John Doe")),
         Field("TaxIdentificationNumber", Str("NL123456789B01")),
         Field("Phone", Obj([Field("Number", Str("+31612345678")), Field("Extension", Str(""))])),
         Field("ShipperNumber", Str("ABCD1234")),
         Field("Address", Obj([Field("AddressLine", List([Str("Main Street 123"), Str("Suite 456")])),
                               Field("City", Str("Amsterdam")), Field("StateProvinceCode", Str("NH")),
                               Field("PostalCode", Str("1012AB")), Field("CountryCode", Str("NL"))]))])

  /** `RECIPIENT_TEMPLATE`. */
  const RecipientTemplate: Value :=
    Obj([Field("Name", Str("Customer Company")), Field("AttentionName", Str("Jane Smith")),
         Field("Phone", Obj([Field("Number", Str("+31687654321")), Field("Extension", Str(""))])),
         Field("Address", Obj([Field("AddressLine", List([Str("Church Street 456"), Str("Floor 3")])),
                               Field("City", Str("Rotterdam")), Field("StateProvinceCode", Str("ZH")),
                               Field("PostalCode", Str("3011GH")), Field("CountryCode", Str("NL"))]))])

  /** `PAYMENT_TEMPLATE`: prepaid (type `01`), billed to the shipper's account. */
  const PaymentTemplate: Value :=
    Obj([Field("ShipmentCharge", Obj([Field("Type", Str("01")),
         Field("BillShipper", Obj([Field("AccountNumber", Obj([Field("Value", Str("ABCD1234"))]))]))]))])

  /** `SERVICE_TEMPLATE`: UPS Next Day Air (code `01`). */
  const ServiceTemplate: Value := Obj([Field("Code", Str("01")), Field("Description", Str("UPS Next Day Air"))])

  /** The `Shipment` part of `BASE_SHIPMENT_TEMPLATE`: every entry but the description is spliced whole. */
  const ShipmentTemplate: Value :=
    ShipmentShape(Str(Braced("shipment_description")), Str(Braced("shipper")), Str(Braced("ship_to")),
                  Str(Braced("ship_from")), Str(Braced("payment")), Str(Braced("service")), Str(Braced("packages")))

  /** `BASE_SHIPMENT_TEMPLATE`. */
  const BaseShipmentTemplate: Value := RequestShell(RequestTemplate, ShipmentTemplate, LabelSpecification)

  /** The `Dimensions` part of `PACKAGE_TEMPLATE`. */
  const DimensionsTemplate: Value :=
    DimensionsShape(Centimetres, Str(Braced("length")), Str(Braced("width")), Str(Braced("height")))

  /** The `PackageWeight` part of `PACKAGE_TEMPLATE`. */
  const WeightTemplate: Value := WeightShape(Kilograms, Str(Braced("weight")))

  /** `PACKAGE_TEMPLATE`: fixed packaging and unit codes, five placeholders. */
  const PackageTemplate: Value := PackageShape(PackagingType, DimensionsTemplate, WeightTemplate, Str(Braced("package_id")))

  /** The context `create_package_data` renders the package template with. */
  function PackageContext(id: int, d: Dimensions): seq<Field> {
    [Field("package_id", Str(PackageId(id))), Field("weight", Str(d.weight)), Field("length", Str(d.length)),
     Field("width", Str(d.width)), Field("height", Str(d.height))]
  }

  /** `create_package_data(package_id, weight, length, width, height)`. */
  function CreatePackageData(id: int, d: Dimensions, eval: Evaluator): Result<Value, RenderError> {
    RenderData(PackageTemplate, PackageContext(id, d), Keep, eval)
  }

  /**
   * Rendering the package template gives the very package the example builds by hand: the five
   * placeholders filled, the packaging and unit codes `02`, `CM` and `KG` as they were.
   */
  lemma PackageRenders(id: int, d: Dimensions, eval: Evaluator)
    ensures CreatePackageData(id, d, eval) == Success(PackageData(id, d))
  {
    var c := PackageContext(id, d);
    DimensionsRender(id, d, eval);
    WeightRenders(id, d, eval);
    PackagePart(id, d, eval);
  }

  lemma DimensionsRender(id: int, d: Dimensions, eval: Evaluator)
    ensures RenderData(DimensionsTemplate, PackageContext(id, d), Keep, eval) == Success(DimensionsData(d))
  {
    PackageBindings(id, d);
    DimensionsFill(PackageContext(id, d), d, eval);
  }

  lemma WeightRenders(id: int, d: Dimensions, eval: Evaluator)
    ensures RenderData(WeightTemplate, PackageContext(id, d), Keep, eval) == Success(WeightData(d))
  {
    PackageBindings(id, d);
    WeightFill(PackageContext(id, d), d, eval);
  }

  lemma PackagePart(id: int, d: Dimensions, eval: Evaluator)
    requires RenderData(DimensionsTemplate, PackageContext(id, d), Keep, eval) == Success(DimensionsData(d))
    requires RenderData(WeightTemplate, PackageContext(id, d), Keep, eval) == Success(WeightData(d))
    ensures RenderData(PackageTemplate, PackageContext(id, d), Keep, eval) == Success(PackageData(id, d))
  {
    PackageBindings(id, d);
    PackageFill(PackageContext(id, d), id, d, eval);
  }

  /** A four-entry dict whose first entry holds no placeholder renders entry by entry. */
  lemma FourFieldsRender(k0: string, k1: string, k2: string, k3: string, v0: Value, t1: Value, t2: Value, t3: Value,
                         r1: Value, r2: Value, r3: Value, c: seq<Field>, eval: Evaluator)
    requires PlainTree(v0)
    requires RenderData(t1, c, Keep, eval) == Success(r1) && RenderData(t2, c, Keep, eval) == Success(r2)
    requires RenderData(t3, c, Keep, eval) == Success(r3)
    ensures RenderData(Obj([Field(k0, v0)] + [Field(k1, t1)] + [Field(k2, t2)] + [Field(k3, t3)]), c, Keep, eval)
            == Success(Obj([Field(k0, v0)] + [Field(k1, r1)] + [Field(k2, r2)] + [Field(k3, r3)]))
  {
    PlainField(k0, v0, c, Keep, eval);
    ValueField(k1, t1, r1, c, Keep, eval);
    ValueField(k2, t2, r2, c, Keep, eval);
    ValueField(k3, t3, r3, c, Keep, eval);
    var f0, f1, f2, f3 := [Field(k0, v0)], [Field(k1, t1)], [Field(k2, t2)], [Field(k3, t3)];
    RenderFieldsAppend(f0, f1, f0, [Field(k1, r1)], c, Keep, eval);
    RenderFieldsAppend(f0 + f1, f2, f0 + [Field(k1, r1)], [Field(k2, r2)], c, Keep, eval);
    RenderObjAppend(f0 + f1 + f2, f3, f0 + [Field(k1, r1)] + [Field(k2, r2)], [Field(k3, r3)], c, Keep, eval);
  }

  /** Over a context binding the three lengths, the dimensions template renders to the dimensions entry. */
  lemma DimensionsFill(c: seq<Field>, d: Dimensions, eval: Evaluator)
    requires Get(c, "length") == Some(Str(d.length)) && Get(c, "width") == Some(Str(d.width))
    requires Get(c, "height") == Some(Str(d.height))
    ensures RenderData(DimensionsTemplate, c, Keep, eval) == Success(DimensionsData(d))
  {
    PlainUnits();
    PackageKeys();
    KeyLeaf("length", Str(d.length), c, Keep, eval);
    KeyLeaf("width", Str(d.width), c, Keep, eval);
    KeyLeaf("height", Str(d.height), c, Keep, eval);
    FourFieldsRender("UnitOfMeasurement", "Length", "Width", "Height", Centimetres, Str(Braced("length")),
                     Str(Braced("width")), Str(Braced("height")), Str(d.length), Str(d.width), Str(d.height), c, eval);
  }

  /** Over a context binding the weight, the weight template renders to the weight entry. */
  lemma WeightFill(c: seq<Field>, d: Dimensions, eval: Evaluator)
    requires Get(c, "weight") == Some(Str(d.weight))
    ensures RenderData(WeightTemplate, c, Keep, eval) == Success(WeightData(d))
  {
    PlainUnits();
    PackageKeys();
    PlainField("UnitOfMeasurement", Kilograms, c, Keep, eval);
    HoleField("Weight", "weight", Str(d.weight), c, Keep, eval);
    RenderFieldsAppend([Field("UnitOfMeasurement", Kilograms)], [Field("Weight", Str(Braced("weight")))],
                       [Field("UnitOfMeasurement", Kilograms)], [Field("Weight", Str(d.weight))], c, Keep, eval);
  }

  /** With its two parts rendered and the identifier bound, the package template renders to the package. */
  lemma PackageFill(c: seq<Field>, id: int, d: Dimensions, eval: Evaluator)
    requires RenderData(DimensionsTemplate, c, Keep, eval) == Success(DimensionsData(d))
    requires RenderData(WeightTemplate, c, Keep, eval) == Success(WeightData(d))
    requires Get(c, "package_id") == Some(Str(PackageId(id)))
    ensures RenderData(PackageTemplate, c, Keep, eval) == Success(PackageData(id, d))
  {
    PlainUnits();
    PackageKeys();
    KeyLeaf("package_id", Str(PackageId(id)), c, Keep, eval);
    FourFieldsRender("PackagingType", "Dimensions", "PackageWeight", "PackageID", PackagingType, DimensionsTemplate,
                     WeightTemplate, Str(Braced("package_id")), DimensionsData(d), WeightData(d), Str(PackageId(id)),
                     c, eval);
  }

  /** The five placeholders of the package template are bound to the package's number and measures. */
  lemma PackageBindings(id: int, d: Dimensions)
    ensures var c := PackageContext(id, d);
            && Identifier("package_id") && Get(c, "package_id") == Some(Str(PackageId(id)))
            && Identifier("weight") && Get(c, "weight") == Some(Str(d.weight))
            && Identifier("length") && Get(c, "length") == Some(Str(d.length))
            && Identifier("width") && Get(c, "width") == Some(Str(d.width))
            && Identifier("height") && Get(c, "height") == Some(Str(d.height))
  {
    var c := PackageContext(id, d);
    PackageKeys();
    GetAt(c, 0, "package_id");
    GetAt(c, 1, "weight");
    GetAt(c, 2, "length");
    GetAt(c, 3, "width");
    GetAt(c, 4, "height");
  }

  lemma PackageKeys()
    ensures Identifier("package_id") && Identifier("weight") && Identifier("length")
    ensures Identifier("width") && Identifier("height")
  {
  }

  lemma PlainUnits()
    ensures PlainTree(Centimetres) && PlainTree(Kilograms) && PlainTree(PackagingType)
  {
  }

  /** `create_packages_data(num_packages, start_id)`: one rendered package per number. */
  method CreatePackagesData(n: int, start: int, eval: Evaluator) returns (packages: seq<Value>)
    ensures packages == PackagesData(n, start, StandardDimensions)
  {
    packages := [];
    var i := 0;
    while i < n
      invariant 0 <= i <= (if n < 0 then 0 else n)
      invariant packages == PackagesData(i, start, StandardDimensions)
    {
      PackageRenders(start + i, StandardDimensions, eval);
      var p := CreatePackageData(start + i, StandardDimensions, eval);
      PackagesAppend(i, 1, start, StandardDimensions);
      packages := packages + [p.value];
      i := i + 1;
    }
  }

  /** The context `create_shipment` renders the base template with. */
  function ShipmentContext(ctx: string, desc: string, packages: seq<Value>): seq<Field> {
    [Field("customer_context", Str(ctx)), Field("shipment_description", Str(desc)),
     Field("shipper", ShipperTemplate), Field("ship_to", RecipientTemplate), Field("ship_from", ShipperTemplate),
     Field("payment", PaymentTemplate), Field("service", ServiceTemplate), Field("packages", List(packages))]
  }

  /** `create_shipment(customer_context, shipment_description, packages)`. */
  function CreateShipment(ctx: string, desc: string, packages: seq<Value>, eval: Evaluator): Result<Value, RenderError> {
    RenderData(BaseShipmentTemplate, ShipmentContext(ctx, desc, packages), Keep, eval)
  }

  /**
   * The request a shipment should become: the base template with the two labels as text and
   * the parties, service and packages in place as structured values.
   */
  function ShipmentPayload(s: Shipment): Value {
    RequestShell(RequestShape(Str("nonvalidate"), Str(s.customerContext)),
                 ShipmentShape(Str(s.description), ShipperTemplate, RecipientTemplate, ShipperTemplate,
                               PaymentTemplate, ServiceTemplate, List(s.packages)),
                 LabelSpecification)
  }

  /**
   * `create_shipment` yields exactly the intended request: the labels substituted, the fixed
   * parts spliced whole, the packages list in `Package`.
   */
  lemma CreateShipmentRenders(ctx: string, desc: string, packages: seq<Value>, eval: Evaluator)
    ensures CreateShipment(ctx, desc, packages, eval) == Success(ShipmentPayload(Shipment(ctx, desc, packages)))
  {
    RequestRenders(ctx, desc, packages, eval);
    ShipmentRenders(ctx, desc, packages, eval);
    ShellRenders(RequestTemplate, ShipmentTemplate, RequestShape(Str("nonvalidate"), Str(ctx)),
                 ShipmentShape(Str(desc), ShipperTemplate, RecipientTemplate, ShipperTemplate, PaymentTemplate,
                               ServiceTemplate, List(packages)),
                 ShipmentContext(ctx, desc, packages), eval);
  }

  lemma RequestRenders(ctx: string, desc: string, packages: seq<Value>, eval: Evaluator)
    ensures RenderData(RequestTemplate, ShipmentContext(ctx, desc, packages), Keep, eval)
            == Success(RequestShape(Str("nonvalidate"), Str(ctx)))
  {
    var c := ShipmentContext(ctx, desc, packages);
    LabelBindings(ctx, desc, packages);
    PlainLabel();
    HoleField("CustomerContext", "customer_context", Str(ctx), c, Keep, eval);
    var inner := Obj([Field("CustomerContext", Str(Braced("customer_context")))]);
    var rinner := Obj([Field("CustomerContext", Str(ctx))]);
    ValueField("TransactionReference", inner, rinner, c, Keep, eval);
    PlainField("RequestOption", Str("nonvalidate"), c, Keep, eval);
    RenderFieldsAppend([Field("RequestOption", Str("nonvalidate"))], [Field("TransactionReference", inner)],
                       [Field("RequestOption", Str("nonvalidate"))], [Field("TransactionReference", rinner)], c, Keep, eval);
  }

  lemma ShipmentRenders(ctx: string, desc: string, packages: seq<Value>, eval: Evaluator)
    ensures RenderData(ShipmentTemplate, ShipmentContext(ctx, desc, packages), Keep, eval)
            == Success(ShipmentShape(Str(desc), ShipperTemplate, RecipientTemplate, ShipperTemplate, PaymentTemplate,
                                     ServiceTemplate, List(packages)))
  {
    ShipmentHeadRenders(ctx, desc, packages, eval);
    ShipmentTailRenders(ctx, desc, packages, eval);
    RenderObjAppend(ShipmentHead(Str(Braced("shipment_description")), Str(Braced("shipper")), Str(Braced("ship_to")),
                                 Str(Braced("ship_from"))),
                    ShipmentTail(Str(Braced("payment")), Str(Braced("service")), Str(Braced("packages"))),
                    ShipmentHead(Str(desc), ShipperTemplate, RecipientTemplate, ShipperTemplate),
                    ShipmentTail(PaymentTemplate, ServiceTemplate, List(packages)),
                    ShipmentContext(ctx, desc, packages), Keep, eval);
  }

  lemma ShipmentHeadRenders(ctx: string, desc: string, packages: seq<Value>, eval: Evaluator)
    ensures RenderFields(ShipmentHead(Str(Braced("shipment_description")), Str(Braced("shipper")), Str(Braced("ship_to")),
                                      Str(Braced("ship_from"))), ShipmentContext(ctx, desc, packages), Keep, eval)
            == Success(ShipmentHead(Str(desc), ShipperTemplate, RecipientTemplate, ShipperTemplate))
  {
    var c := ShipmentContext(ctx, desc, packages);
    LabelBindings(ctx, desc, packages);
    PartyBindings(ctx, desc, packages);
    HoleField("Description", "shipment_description", Str(desc), c, Keep, eval);
    HoleField("Shipper", "shipper", ShipperTemplate, c, Keep, eval);
    HoleField("ShipTo", "ship_to", RecipientTemplate, c, Keep, eval);
    HoleField("ShipFrom", "ship_from", ShipperTemplate, c, Keep, eval);
    var f0, f1, f2, f3 := [Field("Description", Str(Braced("shipment_description")))],
                          [Field("Shipper", Str(Braced("shipper")))], [Field("ShipTo", Str(Braced("ship_to")))],
                          [Field("ShipFrom", Str(Braced("ship_from")))];
    var r0, r1, r2, r3 := [Field("Description", Str(desc))], [Field("Shipper", ShipperTemplate)],
                          [Field("ShipTo", RecipientTemplate)], [Field("ShipFrom", ShipperTemplate)];
    RenderFieldsAppend(f0, f1, r0, r1, c, Keep, eval);
    RenderFieldsAppend(f0 + f1, f2, r0 + r1, r2, c, Keep, eval);
    RenderFieldsAppend(f0 + f1 + f2, f3, r0 + r1 + r2, r3, c, Keep, eval);
  }

  lemma ShipmentTailRenders(ctx: string, desc: string, packages: seq<Value>, eval: Evaluator)
    ensures RenderFields(ShipmentTail(Str(Braced("payment")), Str(Braced("service")), Str(Braced("packages"))),
                         ShipmentContext(ctx, desc, packages), Keep, eval)
            == Success(ShipmentTail(PaymentTemplate, ServiceTemplate, List(packages)))
  {
    var c := ShipmentContext(ctx, desc, packages);
    LabelBindings(ctx, desc, packages);
    PartyBindings(ctx, desc, packages);
    HoleField("PaymentInformation", "payment", PaymentTemplate, c, Keep, eval);
    HoleField("Service", "service", ServiceTemplate, c, Keep, eval);
    HoleField("Package", "packages", List(packages), c, Keep, eval);
    var f0, f1, f2 := [Field("PaymentInformation", Str(Braced("payment")))], [Field("Service", Str(Braced("service")))],
                      [Field("Package", Str(Braced("packages")))];
    var r0, r1, r2 := [Field("PaymentInformation", PaymentTemplate)], [Field("Service", ServiceTemplate)],
                      [Field("Package", List(packages))];
    RenderFieldsAppend(f0, f1, r0, r1, c, Keep, eval);
    RenderFieldsAppend(f0 + f1, f2, r0 + r1, r2, c, Keep, eval);
  }

  lemma LabelBindings(ctx: string, desc: string, packages: seq<Value>)
    ensures var c := ShipmentContext(ctx, desc, packages);
            && Identifier("customer_context") && Get(c, "customer_context") == Some(Str(ctx))
            && Identifier("shipment_description") && Get(c, "shipment_description") == Some(Str(desc))
            && Identifier("packages") && Get(c, "packages") == Some(List(packages))
  {
    var c := ShipmentContext(ctx, desc, packages);
    LabelKeys();
    GetAt(c, 0, "customer_context");
    GetAt(c, 1, "shipment_description");
    GetAt(c, 7, "packages");
  }

  lemma PartyBindings(ctx: string, desc: string, packages: seq<Value>)
    ensures var c := ShipmentContext(ctx, desc, packages);
            && Identifier("shipper") && Get(c, "shipper") == Some(ShipperTemplate)
            && Identifier("ship_to") && Get(c, "ship_to") == Some(RecipientTemplate)
            && Identifier("ship_from") && Get(c, "ship_from") == Some(ShipperTemplate)
            && Identifier("payment") && Get(c, "payment") == Some(PaymentTemplate)
            && Identifier("service") && Get(c, "service") == Some(ServiceTemplate)
  {
    var c := ShipmentContext(ctx, desc, packages);
    PartyKeys();
    GetAt(c, 2, "shipper");
    GetAt(c, 3, "ship_to");
    GetAt(c, 4, "ship_from");
    GetAt(c, 5, "payment");
    GetAt(c, 6, "service");
  }

  lemma PartyKeys()
    ensures Identifier("shipper") && Identifier("ship_to") && Identifier("ship_from")
    ensures Identifier("payment") && Identifier("service")
  {
  }

  /** A request built from a shipment tells that shipment back: labels and packages where UPS reads them. */
  lemma PayloadSummary(s: Shipment)
    ensures Summary(ShipmentPayload(s)) == Some(s)
  {
    SummaryOf(Str("nonvalidate"), s.customerContext, s.description, ShipperTemplate, RecipientTemplate, ShipperTemplate,
              PaymentTemplate, ServiceTemplate, s.packages, LabelSpecification);
  }

  /** The loop body's request for shipment `i` is the payload of the plan's shipment `i`. */
  lemma ShipmentStep(ctx: string, desc: string, total: int, per: int, i: int, eval: Evaluator)
    requires per != 0
    ensures var s := ShipmentAt(ctx, desc, total, per, i);
            CreateShipment(s.customerContext, s.description, s.packages, eval) == Success(ShipmentPayload(s))
  {
    var s := ShipmentAt(ctx, desc, total, per, i);
    CreateShipmentRenders(s.customerContext, s.description, s.packages, eval);
  }

  /**
   * `create_shipments`: one request per shipment of the plan, each the rendered base template for
   * that shipment's labels and packages; a zero shipment size is Python's `ZeroDivisionError`.
   */
  method CreateShipments(ctx: string, desc: string, total: int, per: int, eval: Evaluator)
    returns (r: Result<seq<Value>, BatchError>)
    ensures r.Failure? <==> per == 0
    ensures r.Success? ==> |r.value| == |Plan(total, per)|
    ensures r.Success? ==> forall i :: 0 <= i < |r.value| ==> r.value[i] == ShipmentPayload(ShipmentAt(ctx, desc, total, per, i))
    ensures r.Success? ==> forall i :: 0 <= i < |r.value| ==> Summary(r.value[i]) == Some(ShipmentAt(ctx, desc, total, per, i))
  {
    if per == 0 {
      return Failure(ZeroDivision);
    }
    var n := FloorDiv(total + per - 1, per);
    var shipments: seq<Value> := [];
    var i := 0;
    while i < n
      invariant 0 <= i <= |Plan(total, per)|
      invariant |shipments| == i
      invariant forall k :: 0 <= k < i ==> shipments[k] == ShipmentPayload(ShipmentAt(ctx, desc, total, per, k))
    {
      var start := i * per + 1;
      var end := Min((i + 1) * per, total);
      var packages := CreatePackagesData(end - start + 1, start, eval);
      ShipmentStep(ctx, desc, total, per, i, eval);
      var shipment := CreateShipment(ContextLabel(ctx, i), DescriptionLabel(desc, i, n), packages, eval);
      shipments := shipments + [shipment.value];
      i := i + 1;
    }
    forall k | 0 <= k < |shipments|
      ensures Summary(shipments[k]) == Some(ShipmentAt(ctx, desc, total, per, k))
    {
      PayloadSummary(ShipmentAt(ctx, desc, total, per, k));
    }
    return Success(shipments);
  }
}
