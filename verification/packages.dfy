/** The package dicts of a UPS shipment request and the numbered runs of them the workflows build. */
module Packages {
  import opened Wrappers
  import opened Text
  import opened Values
  import opened Paths
  import opened RenderFacts

  /** A package's weight and dimensions, as the text `str(float)` gives for them. */
  datatype Dimensions = Dimensions(weight: string, length: string, width: string, height: string)

  /** The measures every generated package gets: 2.5 kg, 30 x 20 x 15 cm. */
  const StandardDimensions: Dimensions := Dimensions("2.5", "30.0", "20.0", "15.0")

  /** `f"Package {package_id}"`. */
  function PackageId(id: int): string {
    "Package " + IntToString(id)
  }

  /** The packaging entry every package carries: code `02`, customer packaging. */
  const PackagingType: Value := Obj([Field("Code", Str("02")), Field("Description", Str("Package"))])

  /** The layout of a dimensions entry: the unit, then length, width and height. */
  function DimensionsShape(unit: Value, length: Value, width: Value, height: Value): Value {
    Obj([Field("UnitOfMeasurement", unit)] + [Field("Length", length)] + [Field("Width", width)] + [Field("Height", height)])
  }

  /** The layout of a weight entry: the unit, then the weight. */
  function WeightShape(unit: Value, weight: Value): Value {
    Obj([Field("UnitOfMeasurement", unit)] + [Field("Weight", weight)])
  }

  /** The layout of a package: packaging, dimensions, weight and identifier, in that order. */
  function PackageShape(packaging: Value, dimensions: Value, weight: Value, id: Value): Value {
    Obj([Field("PackagingType", packaging)] + [Field("Dimensions", dimensions)] + [Field("PackageWeight", weight)]
        + [Field("PackageID", id)])
  }

  /** Centimetres, the unit of every package's dimensions. */
  const Centimetres: Value := Obj([Field("Code", Str("CM"))])

  /** Kilograms, the unit of every package's weight. */
  const Kilograms: Value := Obj([Field("Code", Str("KG"))])

  /** The dimensions entry: centimetres, then length, width and height. */
  function DimensionsData(d: Dimensions): Value {
    DimensionsShape(Centimetres, Str(d.length), Str(d.width), Str(d.height))
  }

  /** The weight entry: kilograms, then the weight. */
  function WeightData(d: Dimensions): Value {
    WeightShape(Kilograms, Str(d.weight))
  }

  /**
   * `create_package_data`: packaging, dimensions and weight entries, and the package's
   * identifier under `PackageID`.
   */
  function PackageData(id: int, d: Dimensions): Value {
    PackageShape(PackagingType, DimensionsData(d), WeightData(d), Str(PackageId(id)))
  }

  /** `n` packages numbered from `start`, all with measures `d`; none when `n` is not positive. */
  function PackagesData(n: int, start: int, d: Dimensions): seq<Value> {
    seq(if n < 0 then 0 else n, k requires 0 <= k => PackageData(start + k, d))
  }

  /** `create_packages_data(num_packages, start_id)`: the loop appending one package per number. */
  method CreatePackagesData(n: int, start: int) returns (packages: seq<Value>)
    ensures |packages| == (if n < 0 then 0 else n)
    ensures forall k :: 0 <= k < |packages| ==> packages[k] == PackageData(start + k, StandardDimensions)
    ensures packages == PackagesData(n, start, StandardDimensions)
  {
    packages := [];
    var i := 0;
    while i < n
      invariant 0 <= i <= (if n < 0 then 0 else n)
      invariant |packages| == i
      invariant forall k :: 0 <= k < i ==> packages[k] == PackageData(start + k, StandardDimensions)
    {
      packages := packages + [PackageData(start + i, StandardDimensions)];
      i := i + 1;
    }
  }

  /** A package's `PackageID` entry is `Package <its number>`. */
  lemma PackageIdOf(id: int, d: Dimensions)
    ensures Get(PackageData(id, d).fields, "PackageID") == Some(Str(PackageId(id)))
  {
  }

  /** Different numbers give different identifiers. */
  lemma PackageIdInjective(i: int, j: int)
    requires PackageId(i) == PackageId(j)
    ensures i == j
  {
    var p := "Package ";
    assert IntToString(i) == PackageId(i)[|p|..] && IntToString(j) == PackageId(j)[|p|..];
    IntToStringInjective(i, j);
  }

  /** Two runs where the second continues the first's numbering make one run. */
  lemma PackagesAppend(a: int, b: int, start: int, d: Dimensions)
    requires a >= 0 && b >= 0
    ensures PackagesData(a, start, d) + PackagesData(b, start + a, d) == PackagesData(a + b, start, d)
  {
    var l, r := PackagesData(a, start, d), PackagesData(b, start + a, d);
    forall k | 0 <= k < a + b
      ensures (l + r)[k] == PackageData(start + k, d)
    {
      if k >= a {
        assert (l + r)[k] == r[k - a];
      }
    }
  }

  /** The `k`-th package of a run numbered from `start` is `Package <start + k>`. */
  lemma PackagesIds(n: int, start: int, d: Dimensions, k: int)
    requires 0 <= k < n
    ensures var p := PackagesData(n, start, d)[k];
            p.Obj? && Get(p.fields, "PackageID") == Some(Str(PackageId(start + k)))
  {
    PackageIdOf(start + k, d);
  }

  /** A run of `n` packages from `start` has `n` packages, numbered `start` to `start + n - 1` in order. */
  lemma PackagesNumbered(n: nat, start: int, d: Dimensions)
    ensures |PackagesData(n, start, d)| == n
    ensures forall k :: 0 <= k < n ==>
              var package := PackagesData(n, start, d)[k];
              package.Obj? && Get(package.fields, "PackageID") == Some(Str(PackageId(start + k)))
  {
    forall k | 0 <= k < n
      ensures PackagesData(n, start, d)[k].Obj?
      ensures Get(PackagesData(n, start, d)[k].fields, "PackageID") == Some(Str(PackageId(start + k)))
    {
      PackagesIds(n, start, d, k);
    }
  }

  /** Every package is measured in centimetres and weighed in kilograms. */
  lemma PackageUnits(id: int, d: Dimensions)
    ensures Walk(PackageData(id, d), ["Dimensions", "UnitOfMeasurement", "Code"]) == Some(Str("CM"))
    ensures Walk(PackageData(id, d), ["PackageWeight", "UnitOfMeasurement", "Code"]) == Some(Str("KG"))
  {
    var p := PackageData(id, d);
    GetAt(p.fields, 1, "Dimensions");
    GetAt(p.fields, 2, "PackageWeight");
    GetAt(DimensionsData(d).fields, 0, "UnitOfMeasurement");
    GetAt(WeightData(d).fields, 0, "UnitOfMeasurement");
    GetAt(Centimetres.fields, 0, "Code");
    GetAt(Kilograms.fields, 0, "Code");
    assert Walk(Centimetres, ["Code"]) == Some(Str("CM"));
    assert Walk(Kilograms, ["Code"]) == Some(Str("KG"));
    assert Walk(DimensionsData(d), ["UnitOfMeasurement", "Code"]) == Some(Str("CM"));
    assert Walk(WeightData(d), ["UnitOfMeasurement", "Code"]) == Some(Str("KG"));
  }

  /** A generated package holds no placeholder: its identifier and the standard measures are brace-free. */
  lemma PackagePlain(id: int)
    ensures PlainTree(PackageData(id, StandardDimensions))
  {
    PlainId(id);
    PlainMeasures();
    var d := StandardDimensions;
    PlainDimensions(Centimetres, Str(d.length), Str(d.width), Str(d.height));
    PlainWeight(Kilograms, Str(d.weight));
    PlainPackage(PackagingType, DimensionsData(d), WeightData(d), Str(PackageId(id)));
  }

  lemma PlainId(id: int)
    ensures '{' !in PackageId(id)
  {
    IntToStringPlain(id);
    var p := "Package ";
    assert forall c :: c in PackageId(id) ==> c in p || c in IntToString(id);
  }

  lemma PlainMeasures()
    ensures PlainTree(PackagingType) && PlainTree(Centimetres) && PlainTree(Kilograms)
    ensures PlainTree(Str("2.5")) && PlainTree(Str("30.0")) && PlainTree(Str("20.0")) && PlainTree(Str("15.0"))
  {
  }

  /** Each layout holds a placeholder only where its parts do. */
  lemma PlainDimensions(unit: Value, length: Value, width: Value, height: Value)
    requires PlainTree(unit) && PlainTree(length) && PlainTree(width) && PlainTree(height)
    ensures PlainTree(DimensionsShape(unit, length, width, height))
  {
    var fs := [Field("UnitOfMeasurement", unit), Field("Length", length), Field("Width", width), Field("Height", height)];
    PlainFields(fs);
    assert DimensionsShape(unit, length, width, height).fields == fs;
  }

  lemma PlainWeight(unit: Value, weight: Value)
    requires PlainTree(unit) && PlainTree(weight)
    ensures PlainTree(WeightShape(unit, weight))
  {
    var fs := [Field("UnitOfMeasurement", unit), Field("Weight", weight)];
    PlainFields(fs);
    assert WeightShape(unit, weight).fields == fs;
  }

  lemma PlainPackage(packaging: Value, dimensions: Value, weight: Value, id: Value)
    requires PlainTree(packaging) && PlainTree(dimensions) && PlainTree(weight) && PlainTree(id)
    ensures PlainTree(PackageShape(packaging, dimensions, weight, id))
  {
    var fs := [Field("PackagingType", packaging), Field("Dimensions", dimensions), Field("PackageWeight", weight),
               Field("PackageID", id)];
    PlainFields(fs);
    assert PackageShape(packaging, dimensions, weight, id).fields == fs;
  }

  lemma PlainFields(fields: seq<Field>)
    requires forall i :: 0 <= i < |fields| ==> PlainTree(fields[i].val)
    ensures PlainTree(Obj(fields))
  {
  }

  /** No package of a generated run holds a placeholder. */
  lemma PackagesPlain(n: int, start: int)
    ensures forall k :: 0 <= k < |PackagesData(n, start, StandardDimensions)| ==> PlainTree(PackagesData(n, start, StandardDimensions)[k])
  {
    forall k | 0 <= k < |PackagesData(n, start, StandardDimensions)|
      ensures PlainTree(PackagesData(n, start, StandardDimensions)[k])
    {
      PackagePlain(start + k);
    }
  }
}
