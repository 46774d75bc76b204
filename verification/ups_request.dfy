/**
 * The layout of a UPS shipment request as all three UPS workflows build it: a `Request` part
 * with the customer-context label, a `Shipment` part with the description, the parties, payment,
 * service and packages, and a fixed label specification; and where in it the labels and the
 * packages are read back.
 */
module UpsRequest {
  import opened Wrappers
  import opened Values
  import opened Paths
  import opened RenderFacts
  import opened Render
  import opened RenderTree
  import opened Shipments

  /** The layout of the `Request` part: the request option, then the customer context. */
  function RequestShape(option: Value, context: Value): Value {
    Obj([Field("RequestOption", option)] + [Field("TransactionReference", Obj([Field("CustomerContext", context)]))])
  }

  /** The layout of the `Shipment` part: the description and parties, then payment, service and packages. */
  function ShipmentShape(description: Value, shipper: Value, shipTo: Value, shipFrom: Value, payment: Value,
                         service: Value, package: Value): Value {
    Obj(ShipmentHead(description, shipper, shipTo, shipFrom) + ShipmentTail(payment, service, package))
  }

  function ShipmentHead(description: Value, shipper: Value, shipTo: Value, shipFrom: Value): seq<Field> {
    [Field("Description", description)] + [Field("Shipper", shipper)] + [Field("ShipTo", shipTo)]
    + [Field("ShipFrom", shipFrom)]
  }

  function ShipmentTail(payment: Value, service: Value, package: Value): seq<Field> {
    [Field("PaymentInformation", payment)] + [Field("Service", service)] + [Field("Package", package)]
  }

  /** The layout of a whole request: request, shipment and label parts under `ShipmentRequest`. */
  function RequestShell(request: Value, shipment: Value, labels: Value): Value {
    Obj([Field("ShipmentRequest", Obj([Field("Request", request)] + [Field("Shipment", shipment)]
                                      + [Field("LabelSpecification", labels)]))])
  }

  /** The label part of every UPS request: a PDF label. */
  const LabelSpecification: Value :=
    Obj([Field("LabelImageFormat", Obj([Field("Code", Str("PDF"))])), Field("HTTPUserAgent", Str("Mozilla/4.5"))])

  /** The `Request` part every template shares: no validation, the customer context from `{customer_context}`. */
  const RequestTemplate: Value := RequestShape(Str("nonvalidate"), Str(Braced("customer_context")))

  /** The label specification and the request option hold no placeholder. */
  lemma PlainLabel()
    ensures PlainTree(LabelSpecification) && PlainTree(Str("nonvalidate"))
  {
  }

  /** The label and package keys are plain identifiers. */
  lemma LabelKeys()
    ensures Identifier("customer_context") && Identifier("shipment_description") && Identifier("packages")
  {
  }

  /** The layout of a shipper: name, attention name, tax number, phone, shipper number, address. */
  function ShipperShape(name: Value, attention: Value, taxId: Value, phone: Value, number: Value, address: Value): Value {
    Obj([Field("Name", name)] + [Field("AttentionName", attention)] + [Field("TaxIdentificationNumber", taxId)]
        + [Field("Phone", phone)] + [Field("ShipperNumber", number)] + [Field("Address", address)])
  }

  /** The layout of a recipient or ship-from party: name, attention name, phone, address. */
  function PartyShape(name: Value, attention: Value, phone: Value, address: Value): Value {
    Obj([Field("Name", name)] + [Field("AttentionName", attention)] + [Field("Phone", phone)] + [Field("Address", address)])
  }

  function PhoneShape(number: Value, extension: Value): Value {
    Obj([Field("Number", number)] + [Field("Extension", extension)])
  }

  /** The layout of an address: two address lines, city, state or province, postal code, country. */
  function AddressShape(line1: Value, line2: Value, city: Value, state: Value, postal: Value, country: Value): Value {
    Obj([Field("AddressLine", List([line1, line2]))] + [Field("City", city)] + [Field("StateProvinceCode", state)]
        + [Field("PostalCode", postal)] + [Field("CountryCode", country)])
  }

  /** The path of the customer-context label in a request. */
  const ContextPath: seq<string> := ["ShipmentRequest", "Request", "TransactionReference", "CustomerContext"]

  /** The path of the shipment description. */
  const DescriptionPath: seq<string> := ["ShipmentRequest", "Shipment", "Description"]

  /** The path of the package list. */
  const PackagePath: seq<string> := ["ShipmentRequest", "Shipment", "Package"]

  /** The path of a party's country code inside the `Shipment` part. */
  function PartyCountryPath(party: string): seq<string> {
    [party] + ["Address", "CountryCode"]
  }

  /** The paths of the shipper's, the recipient's and the ship-from party's country codes. */
  const ShipperCountryPath: seq<string> := ["ShipmentRequest", "Shipment"] + PartyCountryPath("Shipper")
  const ShipToCountryPath: seq<string> := ["ShipmentRequest", "Shipment"] + PartyCountryPath("ShipTo")
  const ShipFromCountryPath: seq<string> := ["ShipmentRequest", "Shipment"] + PartyCountryPath("ShipFrom")

  /** A request whose three parties all have country code `country`. */
  predicate AllPartiesIn(payload: Value, country: string) {
    && Walk(payload, ShipperCountryPath) == Some(Str(country))
    && Walk(payload, ShipToCountryPath) == Some(Str(country))
    && Walk(payload, ShipFromCountryPath) == Some(Str(country))
  }

  /** What a rendered shipment request says about its shipment: the two labels and the packages. */
  function Summary(payload: Value): Option<Shipment> {
    match (Walk(payload, ContextPath), Walk(payload, DescriptionPath), Walk(payload, PackagePath))
    case (Some(Str(c)), Some(Str(d)), Some(List(ps))) => Some(Shipment(c, d, ps))
    case _ => None
  }

  /** The customer context sits where the request layout puts it. */
  lemma {:induction false} ContextAt(option: Value, context: Value, shipment: Value, labels: Value)
    ensures Walk(RequestShell(RequestShape(option, context), shipment, labels), ContextPath) == Some(context)
  {
    var p := RequestShell(RequestShape(option, context), shipment, labels);
    var request := p.fields[0].val;
    var req := request.fields[0].val;
    var tr := req.fields[1].val;
    GetAt(p.fields, 0, "ShipmentRequest");
    GetAt(request.fields, 0, "Request");
    GetAt(req.fields, 1, "TransactionReference");
    GetAt(tr.fields, 0, "CustomerContext");
    assert Walk(tr, ["CustomerContext"]) == Some(context);
    assert Walk(req, ["TransactionReference", "CustomerContext"]) == Some(context);
    assert Walk(request, ["Request", "TransactionReference", "CustomerContext"]) == Some(context);
  }

  /** The `Shipment` part sits under `ShipmentRequest`. */
  lemma {:induction false} ShipmentAtPath(request: Value, shipment: Value, labels: Value, rest: seq<string>)
    ensures Walk(RequestShell(request, shipment, labels), ["ShipmentRequest", "Shipment"] + rest) == Walk(shipment, rest)
  {
    var p := RequestShell(request, shipment, labels);
    var inner := p.fields[0].val;
    GetAt(p.fields, 0, "ShipmentRequest");
    GetAt(inner.fields, 1, "Shipment");
    var path := ["ShipmentRequest", "Shipment"] + rest;
    assert path[0] == "ShipmentRequest" && path[1..] == ["Shipment"] + rest;
    assert (["Shipment"] + rest)[0] == "Shipment" && (["Shipment"] + rest)[1..] == rest;
  }

  /** The description sits where the shipment layout puts it. */
  lemma {:induction false} DescriptionAt(request: Value, description: Value, shipper: Value, shipTo: Value, shipFrom: Value,
                                         payment: Value, service: Value, package: Value, labels: Value)
    ensures Walk(RequestShell(request, ShipmentShape(description, shipper, shipTo, shipFrom, payment, service, package), labels),
                 DescriptionPath) == Some(description)
  {
    var shipment := ShipmentShape(description, shipper, shipTo, shipFrom, payment, service, package);
    ShipmentAtPath(request, shipment, labels, ["Description"]);
    assert DescriptionPath == ["ShipmentRequest", "Shipment"] + ["Description"];
    GetAt(shipment.fields, 0, "Description");
  }

  /** The packages sit where the shipment layout puts them. */
  lemma {:induction false} PackageAt(request: Value, description: Value, shipper: Value, shipTo: Value, shipFrom: Value,
                                     payment: Value, service: Value, package: Value, labels: Value)
    ensures Walk(RequestShell(request, ShipmentShape(description, shipper, shipTo, shipFrom, payment, service, package), labels),
                 PackagePath) == Some(package)
  {
    var shipment := ShipmentShape(description, shipper, shipTo, shipFrom, payment, service, package);
    ShipmentAtPath(request, shipment, labels, ["Package"]);
    assert PackagePath == ["ShipmentRequest", "Shipment"] + ["Package"];
    GetAt(shipment.fields, 6, "Package");
  }

  /**
   * A request laid out from a customer context, a description and a package list tells those
   * three back, whatever the parties, payment, service and labels.
   */
  lemma {:induction false} SummaryOf(option: Value, context: string, description: string, shipper: Value, shipTo: Value,
                                     shipFrom: Value, payment: Value, service: Value, packages: seq<Value>, labels: Value)
    ensures Summary(RequestShell(RequestShape(option, Str(context)),
                                 ShipmentShape(Str(description), shipper, shipTo, shipFrom, payment, service, List(packages)),
                                 labels))
            == Some(Shipment(context, description, packages))
  {
    var shipment := ShipmentShape(Str(description), shipper, shipTo, shipFrom, payment, service, List(packages));
    ContextAt(option, Str(context), shipment, labels);
    DescriptionAt(RequestShape(option, Str(context)), Str(description), shipper, shipTo, shipFrom, payment, service,
                  List(packages), labels);
    PackageAt(RequestShape(option, Str(context)), Str(description), shipper, shipTo, shipFrom, payment, service,
              List(packages), labels);
  }

  /**
   * A template holding `{customer_context}` and `{shipment_description}` where the labels go,
   * rendered over a context binding both, gives a request carrying the two labels.
   */
  lemma LabelsRendered(t: Value, c: seq<Field>, eval: Evaluator, r: Value, ctx: string, desc: string)
    requires RenderData(t, c, Keep, eval) == Success(r)
    requires Walk(t, ContextPath) == Some(Str(Braced("customer_context")))
    requires Walk(t, DescriptionPath) == Some(Str(Braced("shipment_description")))
    requires Get(c, "customer_context") == Some(Str(ctx)) && Get(c, "shipment_description") == Some(Str(desc))
    ensures Walk(r, ContextPath) == Some(Str(ctx)) && Walk(r, DescriptionPath) == Some(Str(desc))
  {
    LabelKeys();
    RenderedHole(t, r, ContextPath, "customer_context", Str(ctx), c, Keep, eval);
    RenderedHole(t, r, DescriptionPath, "shipment_description", Str(desc), c, Keep, eval);
  }

  /** A request shell renders part by part: its request and shipment parts rendered, the label part kept. */
  lemma ShellRenders(request: Value, shipment: Value, rr: Value, rs: Value, c: seq<Field>, eval: Evaluator)
    requires RenderData(request, c, Keep, eval) == Success(rr)
    requires RenderData(shipment, c, Keep, eval) == Success(rs)
    ensures RenderData(RequestShell(request, shipment, LabelSpecification), c, Keep, eval)
            == Success(RequestShell(rr, rs, LabelSpecification))
  {
    PlainLabel();
    ValueField("Request", request, rr, c, Keep, eval);
    ValueField("Shipment", shipment, rs, c, Keep, eval);
    PlainField("LabelSpecification", LabelSpecification, c, Keep, eval);
    var f0, f1, f2 := [Field("Request", request)], [Field("Shipment", shipment)],
                      [Field("LabelSpecification", LabelSpecification)];
    RenderFieldsAppend(f0, f1, [Field("Request", rr)], [Field("Shipment", rs)], c, Keep, eval);
    RenderObjAppend(f0 + f1, f2, [Field("Request", rr)] + [Field("Shipment", rs)], f2, c, Keep, eval);
    ValueField("ShipmentRequest", Obj(f0 + f1 + f2),
               Obj([Field("Request", rr)] + [Field("Shipment", rs)] + f2), c, Keep, eval);
  }

  /** A request part holds no query when its option and customer context hold none. */
  lemma RequestShapeQueryFree(option: Value, context: Value)
    requires QueryFree(option) && QueryFree(context)
    ensures QueryFree(RequestShape(option, context))
  {
    var reference := Obj([Field("CustomerContext", context)]);
    assert reference.fields[0].val == context;
    var fields := RequestShape(option, context).fields;
    assert fields[0].val == option && fields[1].val == reference;
  }

  /** A request holds no query when its three parts hold none. */
  lemma ShellQueryFree(request: Value, shipment: Value, labels: Value)
    requires QueryFree(request) && QueryFree(shipment) && QueryFree(labels)
    ensures QueryFree(RequestShell(request, shipment, labels))
  {
    var inner := RequestShell(request, shipment, labels).fields[0].val;
    assert inner.fields[0].val == request && inner.fields[1].val == shipment && inner.fields[2].val == labels;
  }

  /** Walking into a dict by a key it binds continues from the value bound there. */
  lemma {:induction false} WalkInto(v: Value, key: string, rest: seq<string>)
    requires v.Obj? && Get(v.fields, key).Some?
    ensures Walk(v, [key] + rest) == Walk(Get(v.fields, key).value, rest)
  {
    assert ([key] + rest)[0] == key && ([key] + rest)[1..] == rest;
  }

  /** The three parties sit where the shipment layout puts them. */
  lemma ShipmentParties(description: Value, shipper: Value, shipTo: Value, shipFrom: Value, payment: Value,
                        service: Value, package: Value, rest: seq<string>)
    ensures var s := ShipmentShape(description, shipper, shipTo, shipFrom, payment, service, package);
            && Walk(s, ["Shipper"] + rest) == Walk(shipper, rest)
            && Walk(s, ["ShipTo"] + rest) == Walk(shipTo, rest)
            && Walk(s, ["ShipFrom"] + rest) == Walk(shipFrom, rest)
  {
    var s := ShipmentShape(description, shipper, shipTo, shipFrom, payment, service, package);
    GetAt(s.fields, 1, "Shipper");
    GetAt(s.fields, 2, "ShipTo");
    GetAt(s.fields, 3, "ShipFrom");
    WalkInto(s, "Shipper", rest);
    WalkInto(s, "ShipTo", rest);
    WalkInto(s, "ShipFrom", rest);
  }

  /** A shipper's address sits where the shipper layout puts it. */
  lemma ShipperAddress(name: Value, attention: Value, taxId: Value, phone: Value, number: Value, address: Value,
                       rest: seq<string>)
    ensures Walk(ShipperShape(name, attention, taxId, phone, number, address), ["Address"] + rest) == Walk(address, rest)
  {
    var s := ShipperShape(name, attention, taxId, phone, number, address);
    GetAt(s.fields, 5, "Address");
    WalkInto(s, "Address", rest);
  }

  /** A recipient's or ship-from party's address sits where the party layout puts it. */
  lemma PartyAddress(name: Value, attention: Value, phone: Value, address: Value, rest: seq<string>)
    ensures Walk(PartyShape(name, attention, phone, address), ["Address"] + rest) == Walk(address, rest)
  {
    var s := PartyShape(name, attention, phone, address);
    GetAt(s.fields, 3, "Address");
    WalkInto(s, "Address", rest);
  }

  /** An address's country code sits last in the address layout. */
  lemma AddressCountry(line1: Value, line2: Value, city: Value, state: Value, postal: Value, country: Value)
    ensures Walk(AddressShape(line1, line2, city, state, postal, country), ["CountryCode"]) == Some(country)
  {
    var address := AddressShape(line1, line2, city, state, postal, country);
    GetAt(address.fields, 4, "CountryCode");
    WalkInto(address, "CountryCode", []);
  }
}
