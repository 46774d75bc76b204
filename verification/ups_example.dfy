/**
 * The UPS example workflow built on templify: one request template with a placeholder for every
 * party detail, a context merged from the two labels, the packages and five party dicts (each
 * defaulting to fixed Dutch sample data), and the package list spliced in through the whole-leaf
 * `{packages}`.
 */
module UpsExample {
  import opened Wrappers
  import opened Values
  import opened Paths
  import opened Render
  import opened RenderTree
  import opened Batching
  import opened Packages
  import opened Shipments
  import opened UpsRequest

  /** The shipper's address in `UPS_SHIPMENT_TEMPLATE`. */
  const ShipperAddressHoles: Value :=
    AddressShape(Str(Braced("shipper_address_line1")), Str(Braced("shipper_address_line2")), Str(Braced("shipper_city")),
                 Str(Braced("shipper_state")), Str(Braced("shipper_postal_code")), Str(Braced("shipper_country_code")))

  /** The `Shipper` part of `UPS_SHIPMENT_TEMPLATE`: one placeholder per detail. */
  const ShipperPlaceholders: Value :=
    ShipperShape(Str(Braced("shipper_name")), Str(Braced("shipper_attention_name")), Str(Braced("shipper_tax_id")),
                 ShipperPhoneHoles, Str(Braced("shipper_number")), ShipperAddressHoles)

  const ShipperPhoneHoles: Value := PhoneShape(Str(Braced("shipper_phone")), Str(Braced("shipper_phone_ext")))

  /** The recipient's address. */
  const ShipToAddressHoles: Value :=
    AddressShape(Str(Braced("ship_to_address_line1")), Str(Braced("ship_to_address_line2")), Str(Braced("ship_to_city")),
                 Str(Braced("ship_to_state")), Str(Braced("ship_to_postal_code")), Str(Braced("ship_to_country_code")))

  /** The `ShipTo` part. */
  const ShipToPlaceholders: Value :=
    PartyShape(Str(Braced("ship_to_name")), Str(Braced("ship_to_attention_name")),
               PhoneShape(Str(Braced("ship_to_phone")), Str(Braced("ship_to_phone_ext"))), ShipToAddressHoles)

  /** The ship-from party's address. */
  const ShipFromAddressHoles: Value :=
    AddressShape(Str(Braced("ship_from_address_line1")), Str(Braced("ship_from_address_line2")),
                 Str(Braced("ship_from_city")), Str(Braced("ship_from_state")), Str(Braced("ship_from_postal_code")),
                 Str(Braced("ship_from_country_code")))

  /** The `ShipFrom` part. */
  const ShipFromPlaceholders: Value :=
    PartyShape(Str(Braced("ship_from_name")), Str(Braced("ship_from_attention_name")),
               PhoneShape(Str(Braced("ship_from_phone")), Str(Braced("ship_from_phone_ext"))), ShipFromAddressHoles)

  /** The `PaymentInformation` part: the charge type, billed to an account number. */
  const PaymentPlaceholders: Value :=
    Obj([Field("ShipmentCharge",
               Obj([Field("Type", Str(Braced("payment_type")))]
                   + [Field("BillShipper", Obj([Field("AccountNumber", Obj([Field("Value", Str(Braced("account_number")))]))]))]))])

  /** The `Service` part. */
  const ServicePlaceholders: Value :=
    Obj([Field("Code", Str(Braced("service_code")))] + [Field("Description", Str(Braced("service_description")))])

  /** The `Shipment` part: the description and party placeholders, and `package` in `Package`. */
  function ShipmentPlaceholders(package: Value): Value {
    ShipmentShape(Str(Braced("shipment_description")), ShipperPlaceholders, ShipToPlaceholders,
                  ShipFromPlaceholders, PaymentPlaceholders, ServicePlaceholders, package)
  }

  /** The request template with the party placeholders and `package` in `Package`. */
  function PartiesTemplate(package: Value): Value {
    RequestShell(RequestTemplate, ShipmentPlaceholders(package), LabelSpecification)
  }

  /** `UPS_SHIPMENT_TEMPLATE`: the packages come in through the whole-leaf `{packages}`. */
  const ExampleTemplate: Value := PartiesTemplate(Str(Braced("packages")))

  /** The party dicts a request is rendered with. */
  datatype Parties = Parties(shipper: seq<Field>, shipTo: seq<Field>, shipFrom: seq<Field>, payment: seq<Field>,
                             service: seq<Field>)

  /** `create_shipper_data()`. */
  const DefaultShipper: seq<Field> :=
    [Field("shipper_name", Str("Bedrijf BV")), Field("shipper_attention_name", Str("John Doe")),
     Field("shipper_tax_id", Str("NL123456789B01")), Field("shipper_phone", Str("+31612345678")),
     Field("shipper_phone_ext", Str("")), Field("shipper_number", Str("ABCD1234")),
     Field("shipper_address_line1", Str("Hoofdstraat 123")), Field("shipper_address_line2", Str("Suite 456")),
     Field("shipper_city", Str("Amsterdam")), Field("shipper_state", Str("NH")),
     Field("shipper_postal_code", Str("1012AB")), Field("shipper_country_code", Str("NL"))]

  /** `create_ship_to_data()`. */
  const DefaultShipTo: seq<Field> :=
    [Field("ship_to_name", Str("Klant Bedrijf")), Field("ship_to_attention_name", Str("Jane Smith")),
     Field("ship_to_phone", Str("+31687654321")), Field("ship_to_phone_ext", Str("")),
     Field("ship_to_address_line1", Str("Kerkstraat 456")), Field("ship_to_address_line2", Str("Verdieping 3")),
     Field("ship_to_city", Str("Rotterdam")), Field("ship_to_state", Str("ZH")),
     Field("ship_to_postal_code", Str("3011GH")), Field("ship_to_country_code", Str("NL"))]

  /** `create_ship_from_data()`. */
  const DefaultShipFrom: seq<Field> :=
    [Field("ship_from_name", Str("Bedrijf BV")), Field("ship_from_attention_name", Str("John Doe")),
     Field("ship_from_phone", Str("+31612345678")), Field("ship_from_phone_ext", Str("")),
     Field("ship_from_address_line1", Str("Hoofdstraat 123")), Field("ship_from_address_line2", Str("Suite 456")),
     Field("ship_from_city", Str("Amsterdam")), Field("ship_from_state", Str("NH")),
     Field("ship_from_postal_code", Str("1012AB")), Field("ship_from_country_code", Str("NL"))]

  /** `create_payment_data()`: prepaid (`01`) on account `ABCD1234`. */
  const DefaultPayment: seq<Field> := [Field("payment_type", Str("01")), Field("account_number", Str("ABCD1234"))]

  /** `create_service_data()`: UPS Next Day Air (`01`). */
  const DefaultService: seq<Field> :=
    [Field("service_code", Str("01")), Field("service_description", Str("UPS Next Day Air"))]

  /** The party dicts `create_multiple_shipments` uses: each one given, or else its default. */
  function ChosenParties(shipper: Option<seq<Field>>, shipTo: Option<seq<Field>>, shipFrom: Option<seq<Field>>,
                         payment: Option<seq<Field>>, service: Option<seq<Field>>): Parties {
    Parties(OrDefault(shipper, DefaultShipper), OrDefault(shipTo, DefaultShipTo), OrDefault(shipFrom, DefaultShipFrom),
            OrDefault(payment, DefaultPayment), OrDefault(service, DefaultService))
  }

  /** `x if x is not None else default`. */
  function OrDefault(given: Option<seq<Field>>, default: seq<Field>): seq<Field> {
    if given.Some? then given.value else default
  }

  /** The label and package entries the context starts with. */
  function LabelContext(ctx: string, desc: string, packages: seq<Value>): seq<Field> {
    [Field("customer_context", Str(ctx)), Field("shipment_description", Str(desc)), Field("packages", List(packages))]
  }

  /** The party dicts merged over `base` in order: later dicts win on a shared key. */
  function WithParties(base: seq<Field>, p: Parties): seq<Field> {
    Merge(Merge(Merge(Merge(Merge(base, p.shipper), p.shipTo), p.shipFrom), p.payment), p.service)
  }

  /** `create_shipment_context(...)`: the labels and packages, then `**shipper_data` .. `**service_data`. */
  function ShipmentContext(ctx: string, desc: string, packages: seq<Value>, p: Parties): seq<Field> {
    WithParties(LabelContext(ctx, desc, packages), p)
  }

  /** A party dict leaves `key` alone. */
  predicate Unbound(fields: seq<Field>, key: string) {
    Get(fields, key).None?
  }

  /** No party dict rebinds `key`. */
  predicate PartiesLeave(p: Parties, key: string) {
    Unbound(p.shipper, key) && Unbound(p.shipTo, key) && Unbound(p.shipFrom, key) && Unbound(p.payment, key)
    && Unbound(p.service, key)
  }

  /** No party dict rebinds a label or the packages, so the merge cannot overwrite them. */
  predicate KeepsLabels(p: Parties) {
    PartiesLeave(p, "customer_context") && PartiesLeave(p, "shipment_description") && PartiesLeave(p, "packages")
  }

  /**
   * A key no party dict binds keeps its binding from `base`; a key one binds is bound as the
   * last dict binding it says.
   */
  lemma PartiesOver(base: seq<Field>, p: Parties, key: string)
    ensures PartiesLeave(p, key) ==> Get(WithParties(base, p), key) == Get(base, key)
    ensures Get(p.service, key).Some? ==> Get(WithParties(base, p), key) == Get(p.service, key)
    ensures Unbound(p.service, key) && Unbound(p.payment, key) && Unbound(p.shipFrom, key) && Unbound(p.shipTo, key)
            ==> Get(WithParties(base, p), key) == (if Get(p.shipper, key).Some? then Get(p.shipper, key) else Get(base, key))
    ensures Unbound(p.service, key) && Unbound(p.payment, key) && Unbound(p.shipFrom, key) && Get(p.shipTo, key).Some?
            ==> Get(WithParties(base, p), key) == Get(p.shipTo, key)
    ensures Unbound(p.service, key) && Unbound(p.payment, key) && Get(p.shipFrom, key).Some?
            ==> Get(WithParties(base, p), key) == Get(p.shipFrom, key)
  {
  }

  /** No placeholder of the template is a query: every key is free of `|`. */
  lemma ShipperQueryFree()
    ensures QueryFree(ShipperPlaceholders)
  {
    ShipperKeys();
    HoleQueryFree("shipper_name");
    HoleQueryFree("shipper_attention_name");
    HoleQueryFree("shipper_tax_id");
    HoleQueryFree("shipper_phone");
    HoleQueryFree("shipper_phone_ext");
    HoleQueryFree("shipper_number");
    HoleQueryFree("shipper_address_line1");
    HoleQueryFree("shipper_address_line2");
    HoleQueryFree("shipper_city");
    HoleQueryFree("shipper_state");
    HoleQueryFree("shipper_postal_code");
    HoleQueryFree("shipper_country_code");
  }

  lemma ShipperKeys()
    ensures '|' !in "shipper_name" && '|' !in "shipper_attention_name" && '|' !in "shipper_tax_id"
    ensures '|' !in "shipper_phone" && '|' !in "shipper_phone_ext" && '|' !in "shipper_number"
    ensures '|' !in "shipper_address_line1" && '|' !in "shipper_address_line2" && '|' !in "shipper_city"
    ensures '|' !in "shipper_state" && '|' !in "shipper_postal_code" && '|' !in "shipper_country_code"
  {
  }

  lemma ShipToQueryFree()
    ensures QueryFree(ShipToPlaceholders)
  {
    PartyKeys("ship_to_name", "ship_to_attention_name", "ship_to_phone", "ship_to_phone_ext", "ship_to_address_line1",
              "ship_to_address_line2", "ship_to_city", "ship_to_state", "ship_to_postal_code", "ship_to_country_code");
  }

  lemma ShipFromQueryFree()
    ensures QueryFree(ShipFromPlaceholders)
  {
    PartyKeys("ship_from_name", "ship_from_attention_name", "ship_from_phone", "ship_from_phone_ext",
              "ship_from_address_line1", "ship_from_address_line2", "ship_from_city", "ship_from_state",
              "ship_from_postal_code", "ship_from_country_code");
  }

  /** A party laid out from ten `|`-free keys holds no query. */
  lemma {:induction false} PartyKeys(name: string, attention: string, phone: string, ext: string, line1: string,
                                     line2: string, city: string, state: string, postal: string, country: string)
    requires '|' !in name && '|' !in attention && '|' !in phone && '|' !in ext && '|' !in line1
    requires '|' !in line2 && '|' !in city && '|' !in state && '|' !in postal && '|' !in country
    ensures QueryFree(PartyShape(Str(Braced(name)), Str(Braced(attention)), PhoneShape(Str(Braced(phone)), Str(Braced(ext))),
                                 AddressShape(Str(Braced(line1)), Str(Braced(line2)), Str(Braced(city)), Str(Braced(state)),
                                              Str(Braced(postal)), Str(Braced(country)))))
  {
    HoleQueryFree(name);
    HoleQueryFree(attention);
    HoleQueryFree(phone);
    HoleQueryFree(ext);
    HoleQueryFree(line1);
    HoleQueryFree(line2);
    HoleQueryFree(city);
    HoleQueryFree(state);
    HoleQueryFree(postal);
    HoleQueryFree(country);
  }

  lemma ChargesQueryFree()
    ensures QueryFree(PaymentPlaceholders) && QueryFree(ServicePlaceholders)
  {
    HoleQueryFree("payment_type");
    HoleQueryFree("account_number");
    HoleQueryFree("service_code");
    HoleQueryFree("service_description");
  }

  /** The template holds no query as long as what stands in `Package` holds none. */
  lemma TemplateQueryFree(package: Value)
    requires QueryFree(package)
    ensures QueryFree(PartiesTemplate(package))
  {
    ShipmentQueryFree(package);
    HoleQueryFree("customer_context");
    PlainLabel();
    PlainIsQueryFree(Str("nonvalidate"));
    RequestShapeQueryFree(Str("nonvalidate"), Str(Braced("customer_context")));
    PlainIsQueryFree(LabelSpecification);
    ShellQueryFree(RequestTemplate, ShipmentPlaceholders(package), LabelSpecification);
  }

  lemma ShipmentQueryFree(package: Value)
    requires QueryFree(package)
    ensures QueryFree(ShipmentPlaceholders(package))
  {
    ShipperQueryFree();
    ShipToQueryFree();
    ShipFromQueryFree();
    ChargesQueryFree();
    HoleQueryFree("shipment_description");
  }

  /** `create_ups_shipment(...)`: the example template rendered with the merged context. */
  function CreateUpsShipment(ctx: string, desc: string, packages: seq<Value>, p: Parties, eval: Evaluator)
    : Result<Value, RenderError>
  {
    RenderData(ExampleTemplate, ShipmentContext(ctx, desc, packages, p), Keep, eval)
  }

  /** The template holds the two label placeholders where the labels go. */
  lemma LabelHoles(package: Value)
    ensures Walk(PartiesTemplate(package), ContextPath) == Some(Str(Braced("customer_context")))
    ensures Walk(PartiesTemplate(package), DescriptionPath) == Some(Str(Braced("shipment_description")))
  {
    ContextAt(Str("nonvalidate"), Str(Braced("customer_context")), ShipmentPlaceholders(package), LabelSpecification);
    DescriptionAt(RequestTemplate, Str(Braced("shipment_description")), ShipperPlaceholders, ShipToPlaceholders,
                  ShipFromPlaceholders, PaymentPlaceholders, ServicePlaceholders, package, LabelSpecification);
  }

  /** Rendering the example template never fails, whatever the party dicts hold. */
  lemma UpsShipmentSucceeds(ctx: string, desc: string, packages: seq<Value>, p: Parties, eval: Evaluator)
    ensures CreateUpsShipment(ctx, desc, packages, p, eval).Success?
  {
    HoleQueryFree("packages");
    TemplateQueryFree(Str(Braced("packages")));
    LenientTreeSucceeds(ExampleTemplate, ShipmentContext(ctx, desc, packages, p), Keep, eval);
  }

  /** Unless a party dict rebinds them, the context binds the two labels and the packages as given. */
  lemma LabelBindings(ctx: string, desc: string, packages: seq<Value>, p: Parties)
    requires KeepsLabels(p)
    ensures var c := ShipmentContext(ctx, desc, packages, p);
            && Get(c, "customer_context") == Some(Str(ctx))
            && Get(c, "shipment_description") == Some(Str(desc))
            && Get(c, "packages") == Some(List(packages))
  {
    var base := LabelContext(ctx, desc, packages);
    PartiesOver(base, p, "customer_context");
    PartiesOver(base, p, "shipment_description");
    PartiesOver(base, p, "packages");
    GetAt(base, 0, "customer_context");
    GetAt(base, 1, "shipment_description");
    GetAt(base, 2, "packages");
  }

  /**
   * When no party dict rebinds a label or the packages, the request carries the customer context,
   * the description and, spliced whole from `{packages}`, the very package list passed in.
   */
  lemma UpsShipmentSummary(ctx: string, desc: string, packages: seq<Value>, p: Parties, eval: Evaluator)
    requires KeepsLabels(p)
    ensures CreateUpsShipment(ctx, desc, packages, p, eval).Success?
    ensures Summary(CreateUpsShipment(ctx, desc, packages, p, eval).value) == Some(Shipment(ctx, desc, packages))
  {
    UpsShipmentSucceeds(ctx, desc, packages, p, eval);
    var c := ShipmentContext(ctx, desc, packages, p);
    var r := CreateUpsShipment(ctx, desc, packages, p, eval).value;
    LabelBindings(ctx, desc, packages, p);
    LabelKeys();
    var package := Str(Braced("packages"));
    ContextAt(Str("nonvalidate"), Str(Braced("customer_context")),
              ShipmentShape(Str(Braced("shipment_description")), ShipperPlaceholders, ShipToPlaceholders,
                            ShipFromPlaceholders, PaymentPlaceholders, ServicePlaceholders, package),
              LabelSpecification);
    DescriptionAt(RequestTemplate, Str(Braced("shipment_description")), ShipperPlaceholders, ShipToPlaceholders,
                  ShipFromPlaceholders, PaymentPlaceholders, ServicePlaceholders, package, LabelSpecification);
    PackageAt(RequestTemplate, Str(Braced("shipment_description")), ShipperPlaceholders, ShipToPlaceholders,
              ShipFromPlaceholders, PaymentPlaceholders, ServicePlaceholders, package, LabelSpecification);
    RenderedHole(ExampleTemplate, r, ContextPath, "customer_context", Str(ctx), c, Keep, eval);
    RenderedHole(ExampleTemplate, r, DescriptionPath, "shipment_description", Str(desc), c, Keep, eval);
    RenderedHole(ExampleTemplate, r, PackagePath, "packages", List(packages), c, Keep, eval);
  }

  /**
   * The default party dicts bind neither label nor the packages. The default keys start with
   * `s` except the payment keys, whose sixth character is `n`; `customer_context` and `packages`
   * differ from both, and `shipment_description` differs from the shipper and ship-to/ship-from
   * keys in its fifth character and from the service keys in its fourth.
   */
  lemma DefaultsKeepLabels()
    ensures KeepsLabels(ChosenParties(None, None, None, None, None))
  {
    DefaultKeyChars();
    DefaultsLeave("customer_context");
    DefaultsLeave("packages");
    var key := "shipment_description";
    UnboundAt(DefaultShipper, key, 4, 'p');
    UnboundAt(DefaultShipTo, key, 4, '_');
    UnboundAt(DefaultShipFrom, key, 4, '_');
    UnboundAt(DefaultPayment, key, 5, 'n');
    UnboundAt(DefaultService, key, 3, 'v');
  }

  /** A key that starts with neither `s` nor has `n` as its sixth character is bound by no default dict. */
  lemma DefaultsLeave(key: string)
    requires |key| > 5 && key[0] != 's' && key[5] != 'n'
    ensures PartiesLeave(ChosenParties(None, None, None, None, None), key)
  {
    DefaultKeyChars();
    UnboundAt(DefaultShipper, key, 0, 's');
    UnboundAt(DefaultShipTo, key, 0, 's');
    UnboundAt(DefaultShipFrom, key, 0, 's');
    UnboundAt(DefaultPayment, key, 5, 'n');
    UnboundAt(DefaultService, key, 0, 's');
  }

  /** Every key of `fields` has `c` at position `i`. */
  predicate KeyCharIs(fields: seq<Field>, i: nat, c: char) {
    forall j :: 0 <= j < |fields| ==> i < |fields[j].key| && fields[j].key[i] == c
  }

  /** The default key characters the label and country arguments rely on. */
  lemma DefaultKeyChars()
    ensures KeyCharIs(DefaultShipper, 0, 's') && KeyCharIs(DefaultShipper, 4, 'p')
    ensures KeyCharIs(DefaultShipTo, 0, 's') && KeyCharIs(DefaultShipTo, 4, '_')
    ensures KeyCharIs(DefaultShipFrom, 0, 's') && KeyCharIs(DefaultShipFrom, 4, '_') && KeyCharIs(DefaultShipFrom, 5, 'f')
    ensures KeyCharIs(DefaultPayment, 5, 'n')
    ensures KeyCharIs(DefaultService, 0, 's') && KeyCharIs(DefaultService, 3, 'v')
  {
    ShipperFirstChars();
    ShipperFifthChars();
    ShipToFirstChars();
    ShipToFifthChars();
    ShipFromFirstChars();
    ShipFromFifthChars();
    ShipFromSixthChars();
    ServiceFirstChars();
    ServiceFourthChars();
    PaymentSixthChars();
  }

  lemma ShipperFirstChars()
    ensures KeyCharIs(DefaultShipper, 0, 's')
  {
  }

  lemma ShipperFifthChars()
    ensures KeyCharIs(DefaultShipper, 4, 'p')
  {
  }

  lemma ShipToFirstChars()
    ensures KeyCharIs(DefaultShipTo, 0, 's')
  {
  }

  lemma ShipToFifthChars()
    ensures KeyCharIs(DefaultShipTo, 4, '_')
  {
  }

  lemma ShipFromFirstChars()
    ensures KeyCharIs(DefaultShipFrom, 0, 's')
  {
  }

  lemma ShipFromFifthChars()
    ensures KeyCharIs(DefaultShipFrom, 4, '_')
  {
  }

  lemma ShipFromSixthChars()
    ensures KeyCharIs(DefaultShipFrom, 5, 'f')
  {
  }

  lemma ServiceFirstChars()
    ensures KeyCharIs(DefaultService, 0, 's')
  {
  }

  lemma ServiceFourthChars()
    ensures KeyCharIs(DefaultService, 3, 'v')
  {
  }

  lemma PaymentSixthChars()
    ensures KeyCharIs(DefaultPayment, 5, 'n')
  {
  }

  /** A dict whose keys all have `c` at position `i` does not bind a key with another character there. */
  lemma UnboundAt(fields: seq<Field>, key: string, i: nat, c: char)
    requires KeyCharIs(fields, i, c) && i < |key| && key[i] != c
    ensures Unbound(fields, key)
  {
    GetFound(fields, key);
  }

  /** The party dicts `create_multiple_shipments` uses when given none. */
  const DefaultParties: Parties := ChosenParties(None, None, None, None, None)

  /** Over any base, the default party dicts bind the three country codes to `NL`. */
  lemma DefaultCountries(base: seq<Field>)
    ensures Get(WithParties(base, DefaultParties), "shipper_country_code") == Some(Str("NL"))
    ensures Get(WithParties(base, DefaultParties), "ship_to_country_code") == Some(Str("NL"))
    ensures Get(WithParties(base, DefaultParties), "ship_from_country_code") == Some(Str("NL"))
  {
    ShipperCountry(base);
    ShipToCountry(base);
    ShipFromCountry(base);
  }

  lemma ShipperCountry(base: seq<Field>)
    ensures Get(WithParties(base, DefaultParties), "shipper_country_code") == Some(Str("NL"))
  {
    DefaultKeyChars();
    var key := "shipper_country_code";
    UnboundAt(DefaultShipTo, key, 4, '_');
    UnboundAt(DefaultShipFrom, key, 4, '_');
    UnboundAt(DefaultPayment, key, 5, 'n');
    UnboundAt(DefaultService, key, 3, 'v');
    GetAt(DefaultShipper, 11, key);
    PartiesOver(base, DefaultParties, key);
  }

  lemma ShipToCountry(base: seq<Field>)
    ensures Get(WithParties(base, DefaultParties), "ship_to_country_code") == Some(Str("NL"))
  {
    DefaultKeyChars();
    var key := "ship_to_country_code";
    UnboundAt(DefaultShipFrom, key, 5, 'f');
    UnboundAt(DefaultPayment, key, 5, 'n');
    UnboundAt(DefaultService, key, 3, 'v');
    GetAt(DefaultShipTo, 9, key);
    PartiesOver(base, DefaultParties, key);
  }

  lemma ShipFromCountry(base: seq<Field>)
    ensures Get(WithParties(base, DefaultParties), "ship_from_country_code") == Some(Str("NL"))
  {
    DefaultKeyChars();
    var key := "ship_from_country_code";
    UnboundAt(DefaultPayment, key, 5, 'n');
    UnboundAt(DefaultService, key, 3, 'v');
    GetAt(DefaultShipFrom, 9, key);
    PartiesOver(base, DefaultParties, key);
  }

  /** The template holds `{shipper_country_code}` and its two siblings where the country codes go. */
  lemma CountryHoles(package: Value)
    ensures Walk(PartiesTemplate(package), ShipperCountryPath) == Some(Str(Braced("shipper_country_code")))
    ensures Walk(PartiesTemplate(package), ShipToCountryPath) == Some(Str(Braced("ship_to_country_code")))
    ensures Walk(PartiesTemplate(package), ShipFromCountryPath) == Some(Str(Braced("ship_from_country_code")))
  {
    ShipperCountryHole(package);
    ShipToCountryHole(package);
    ShipFromCountryHole(package);
  }

  /** Each address template holds its party's country-code placeholder under `CountryCode`. */
  lemma AddressHolesCountry()
    ensures Walk(ShipperAddressHoles, ["CountryCode"]) == Some(Str(Braced("shipper_country_code")))
    ensures Walk(ShipToAddressHoles, ["CountryCode"]) == Some(Str(Braced("ship_to_country_code")))
    ensures Walk(ShipFromAddressHoles, ["CountryCode"]) == Some(Str(Braced("ship_from_country_code")))
  {
    AddressCountry(Str(Braced("shipper_address_line1")), Str(Braced("shipper_address_line2")),
                   Str(Braced("shipper_city")), Str(Braced("shipper_state")), Str(Braced("shipper_postal_code")),
                   Str(Braced("shipper_country_code")));
    AddressCountry(Str(Braced("ship_to_address_line1")), Str(Braced("ship_to_address_line2")),
                   Str(Braced("ship_to_city")), Str(Braced("ship_to_state")), Str(Braced("ship_to_postal_code")),
                   Str(Braced("ship_to_country_code")));
    AddressCountry(Str(Braced("ship_from_address_line1")), Str(Braced("ship_from_address_line2")),
                   Str(Braced("ship_from_city")), Str(Braced("ship_from_state")), Str(Braced("ship_from_postal_code")),
                   Str(Braced("ship_from_country_code")));
  }

  lemma ShipperCountryHole(package: Value)
    ensures Walk(PartiesTemplate(package), ShipperCountryPath) == Some(Str(Braced("shipper_country_code")))
  {
    ShipmentAtPath(RequestTemplate, ShipmentPlaceholders(package), LabelSpecification, PartyCountryPath("Shipper"));
    ShipmentParties(Str(Braced("shipment_description")), ShipperPlaceholders, ShipToPlaceholders, ShipFromPlaceholders,
                    PaymentPlaceholders, ServicePlaceholders, package, ["Address", "CountryCode"]);
    ShipperAddress(Str(Braced("shipper_name")), Str(Braced("shipper_attention_name")), Str(Braced("shipper_tax_id")),
                   ShipperPhoneHoles, Str(Braced("shipper_number")), ShipperAddressHoles, ["CountryCode"]);
    AddressHolesCountry();
  }

  lemma ShipToCountryHole(package: Value)
    ensures Walk(PartiesTemplate(package), ShipToCountryPath) == Some(Str(Braced("ship_to_country_code")))
  {
    ShipmentAtPath(RequestTemplate, ShipmentPlaceholders(package), LabelSpecification, PartyCountryPath("ShipTo"));
    ShipmentParties(Str(Braced("shipment_description")), ShipperPlaceholders, ShipToPlaceholders, ShipFromPlaceholders,
                    PaymentPlaceholders, ServicePlaceholders, package, ["Address", "CountryCode"]);
    PartyAddress(Str(Braced("ship_to_name")), Str(Braced("ship_to_attention_name")),
                 PhoneShape(Str(Braced("ship_to_phone")), Str(Braced("ship_to_phone_ext"))), ShipToAddressHoles,
                 ["CountryCode"]);
    AddressHolesCountry();
  }

  lemma ShipFromCountryHole(package: Value)
    ensures Walk(PartiesTemplate(package), ShipFromCountryPath) == Some(Str(Braced("ship_from_country_code")))
  {
    ShipmentAtPath(RequestTemplate, ShipmentPlaceholders(package), LabelSpecification, PartyCountryPath("ShipFrom"));
    ShipmentParties(Str(Braced("shipment_description")), ShipperPlaceholders, ShipToPlaceholders, ShipFromPlaceholders,
                    PaymentPlaceholders, ServicePlaceholders, package, ["Address", "CountryCode"]);
    PartyAddress(Str(Braced("ship_from_name")), Str(Braced("ship_from_attention_name")),
                 PhoneShape(Str(Braced("ship_from_phone")), Str(Braced("ship_from_phone_ext"))), ShipFromAddressHoles,
                 ["CountryCode"]);
    AddressHolesCountry();
  }

  /**
   * A request rendered from the example template (with anything in `Package`) over a context whose
   * party dicts are the defaults has every party in the Netherlands.
   */
  lemma DutchParties(package: Value, base: seq<Field>, eval: Evaluator, r: Value)
    requires RenderData(PartiesTemplate(package), WithParties(base, DefaultParties), Keep, eval) == Success(r)
    ensures AllPartiesIn(r, "NL")
  {
    CountryKeys();
    CountryHoles(package);
    DefaultCountries(base);
    CountriesRendered(PartiesTemplate(package), WithParties(base, DefaultParties), eval, r);
  }

  /** A template with the three country placeholders, rendered over a context binding all three to `NL`. */
  lemma CountriesRendered(t: Value, c: seq<Field>, eval: Evaluator, r: Value)
    requires RenderData(t, c, Keep, eval) == Success(r)
    requires Walk(t, ShipperCountryPath) == Some(Str(Braced("shipper_country_code")))
    requires Walk(t, ShipToCountryPath) == Some(Str(Braced("ship_to_country_code")))
    requires Walk(t, ShipFromCountryPath) == Some(Str(Braced("ship_from_country_code")))
    requires Get(c, "shipper_country_code") == Some(Str("NL")) && Get(c, "ship_to_country_code") == Some(Str("NL"))
    requires Get(c, "ship_from_country_code") == Some(Str("NL"))
    ensures AllPartiesIn(r, "NL")
  {
    CountryKeys();
    RenderedHole(t, r, ShipperCountryPath, "shipper_country_code", Str("NL"), c, Keep, eval);
    RenderedHole(t, r, ShipToCountryPath, "ship_to_country_code", Str("NL"), c, Keep, eval);
    RenderedHole(t, r, ShipFromCountryPath, "ship_from_country_code", Str("NL"), c, Keep, eval);
  }

  lemma CountryKeys()
    ensures Identifier("shipper_country_code") && Identifier("ship_to_country_code") && Identifier("ship_from_country_code")
  {
    ShipperCountryKey();
    ShipToCountryKey();
  }

  lemma ShipperCountryKey()
    ensures Identifier("shipper_country_code")
  {
  }

  lemma ShipToCountryKey()
    ensures Identifier("ship_to_country_code")
  {
  }

  /** Requests rendered for the plan's shipments tell those shipments back. */
  lemma ShipmentSummaries(ctx: string, desc: string, total: int, per: int, p: Parties, shipments: seq<Value>,
                          eval: Evaluator)
    requires per != 0 && KeepsLabels(p)
    requires forall k :: 0 <= k < |shipments| ==>
               var s := ShipmentAt(ctx, desc, total, per, k);
               CreateUpsShipment(s.customerContext, s.description, s.packages, p, eval) == Success(shipments[k])
    ensures forall k :: 0 <= k < |shipments| ==> Summary(shipments[k]) == Some(ShipmentAt(ctx, desc, total, per, k))
  {
    forall k | 0 <= k < |shipments|
      ensures Summary(shipments[k]) == Some(ShipmentAt(ctx, desc, total, per, k))
    {
      var s := ShipmentAt(ctx, desc, total, per, k);
      UpsShipmentSummary(s.customerContext, s.description, s.packages, p, eval);
    }
  }

  /**
   * `create_multiple_shipments`: the party dicts defaulted, then one rendered request per shipment
   * of the plan. Each request is the example template rendered for that shipment's labels and
   * packages with the chosen party dicts; when none of those rebinds a label or the packages (as
   * with the defaults), each request tells its planned shipment back. A zero shipment size is
   * Python's `ZeroDivisionError`.
   */
  method CreateMultipleShipments(ctx: string, desc: string, total: int, per: int, shipper: Option<seq<Field>>,
                                 shipTo: Option<seq<Field>>, shipFrom: Option<seq<Field>>, payment: Option<seq<Field>>,
                                 service: Option<seq<Field>>, eval: Evaluator)
    returns (r: Result<seq<Value>, BatchError>)
    ensures r.Failure? <==> per == 0
    ensures r.Success? ==> |r.value| == |Plan(total, per)|
    ensures r.Success? ==> forall i :: 0 <= i < |r.value| ==>
              var s := ShipmentAt(ctx, desc, total, per, i);
              CreateUpsShipment(s.customerContext, s.description, s.packages,
                                ChosenParties(shipper, shipTo, shipFrom, payment, service), eval) == Success(r.value[i])
    ensures r.Success? && KeepsLabels(ChosenParties(shipper, shipTo, shipFrom, payment, service)) ==>
              forall i :: 0 <= i < |r.value| ==> Summary(r.value[i]) == Some(ShipmentAt(ctx, desc, total, per, i))
    ensures r.Success? && shipper.None? && shipTo.None? && shipFrom.None? && payment.None? && service.None? ==>
              forall i :: 0 <= i < |r.value| ==> Summary(r.value[i]) == Some(ShipmentAt(ctx, desc, total, per, i))
  {
    var parties := ChosenParties(shipper, shipTo, shipFrom, payment, service);
    if per == 0 {
      return Failure(ZeroDivision);
    }
    var shipments := RenderShipments(ctx, desc, total, per, parties, eval);
    if shipper.None? && shipTo.None? && shipFrom.None? && payment.None? && service.None? {
      DefaultsKeepLabels();
    }
    if KeepsLabels(parties) {
      ShipmentSummaries(ctx, desc, total, per, parties, shipments, eval);
    }
    return Success(shipments);
  }

  /** The loop of `create_multiple_shipments`: for each shipment of the plan, its packages, labels and request. */
  method RenderShipments(ctx: string, desc: string, total: int, per: int, parties: Parties, eval: Evaluator)
    returns (shipments: seq<Value>)
    requires per != 0
    ensures |shipments| == |Plan(total, per)|
    ensures forall k :: 0 <= k < |shipments| ==>
              var s := ShipmentAt(ctx, desc, total, per, k);
              CreateUpsShipment(s.customerContext, s.description, s.packages, parties, eval) == Success(shipments[k])
  {
    var n := FloorDiv(total + per - 1, per);
    shipments := [];
    var i := 0;
    while i < n
      invariant 0 <= i <= |Plan(total, per)|
      invariant |shipments| == i
      invariant forall k :: 0 <= k < i ==>
                  var s := ShipmentAt(ctx, desc, total, per, k);
                  CreateUpsShipment(s.customerContext, s.description, s.packages, parties, eval) == Success(shipments[k])
    {
      var start := i * per + 1;
      var end := Min((i + 1) * per, total);
      var packages := CreatePackagesData(end - start + 1, start);
      ghost var s := ShipmentAt(ctx, desc, total, per, i);
      UpsShipmentSucceeds(s.customerContext, s.description, s.packages, parties, eval);
      var shipment := CreateUpsShipment(ContextLabel(ctx, i), DescriptionLabel(desc, i, n), packages, parties, eval);
      shipments := shipments + [shipment.value];
      i := i + 1;
    }
  }
}
