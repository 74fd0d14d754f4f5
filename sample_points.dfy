/**
 * The sampled NDVI points of app.py: each sampled feature is labelled with
 * a "Class" property by `classify_point`, the collection is mapped with it,
 * and the result is split into four point layers by exact match on
 * "Class". The sampling itself is an input: a sequence of features, each
 * carrying its location and the composite's NDVI value there.
 */
module SamplePoints {
  import opened Classifier

  /** A point geometry. */
  datatype Location = Location(lon: real, lat: real)

  /** A feature property value: a number or a string. */
  datatype Value = Num(n: real) | Str(s: string)

  /** A feature: a geometry and its named properties. */
  datatype Feature = Feature(geometry: Location, properties: map<string, Value>)

  const NdviKey: string := "NDVI"
  const ClassKey: string := "Class"

  /** The label strings `classify_point` writes into "Class". */
  function ClassName(c: Class): string
  {
    match c
    case Dense => "Dense"
    case Moderate => "Moderate"
    case Sparse => "Sparse"
    case BuiltUp => "Built-up"
  }

  /** Distinct classes are written as distinct strings. */
  lemma ClassNameInjective(c: Class, d: Class)
    ensures ClassName(c) == ClassName(d) <==> c == d
  {
  }

  /** A sampled feature: it has a numeric "NDVI" property. */
  predicate IsSample(f: Feature)
  {
    NdviKey in f.properties && f.properties[NdviKey].Num?
  }

  /** The NDVI value a sampled feature carries. */
  function Ndvi(f: Feature): real
    requires IsSample(f)
  {
    f.properties[NdviKey].n
  }

  /** Every feature of the collection is a sample. */
  predicate AllSamples(fs: seq<Feature>)
  {
    forall i :: 0 <= i < |fs| ==> IsSample(fs[i])
  }

  /** `ee.Filter.eq("Class", name)`: the feature's "Class" is exactly the string `name`. */
  predicate HasClass(f: Feature, name: string)
  {
    ClassKey in f.properties && f.properties[ClassKey] == Str(name)
  }

  /** `f` has the geometry of `g` and the same properties with the same values, "Class" aside. */
  predicate SameExceptClass(f: Feature, g: Feature)
  {
    && f.geometry == g.geometry
    && f.properties.Keys - {ClassKey} == g.properties.Keys - {ClassKey}
    && forall k :: k in g.properties && k != ClassKey ==> k in f.properties && f.properties[k] == g.properties[k]
  }

  /**
   * `classify_point`: sets "Class" to the label of the feature's NDVI and
   * leaves its geometry and every other property as they were.
   */
  function ClassifyPoint(f: Feature): (r: Feature)
    requires IsSample(f)
    ensures SameExceptClass(r, f) && ClassKey in r.properties
    ensures IsSample(r) && Ndvi(r) == Ndvi(f)
    ensures HasClass(r, ClassName(Label(Ndvi(f))))
  {
    f.(properties := f.properties[ClassKey := Str(ClassName(Label(Ndvi(f))))])
  }

  /**
   * `points.map(classify_point)`: the same number of points, in the same
   * order, each with its location and NDVI unchanged and its label added.
   */
  function ClassifyPoints(fs: seq<Feature>): (rs: seq<Feature>)
    requires AllSamples(fs)
    ensures |rs| == |fs|
    ensures forall i :: 0 <= i < |fs| ==>
      && SameExceptClass(rs[i], fs[i])
      && IsSample(rs[i]) && Ndvi(rs[i]) == Ndvi(fs[i])
      && HasClass(rs[i], ClassName(Label(Ndvi(fs[i]))))
  {
    if fs == [] then []
    else [ClassifyPoint(fs[0])] + ClassifyPoints(fs[1..])
  }

  /**
   * `points.filter(ee.Filter.eq("Class", name))`: the features whose
   * "Class" is exactly `name`, in their original order.
   */
  function FilterClass(fs: seq<Feature>, name: string): (rs: seq<Feature>)
    ensures |rs| <= |fs|
    ensures forall f :: f in rs <==> f in fs && HasClass(f, name)
  {
    if fs == [] then []
    else if HasClass(fs[0], name) then [fs[0]] + FilterClass(fs[1..], name)
    else FilterClass(fs[1..], name)
  }

  /** The feature carries one of the four label strings. */
  predicate IsLabelled(f: Feature)
  {
    exists c :: HasClass(f, ClassName(c))
  }

  /**
   * The four class filters split a labelled collection: together they hold
   * every feature exactly as often as the collection does.
   */
  lemma {:induction false} FiltersPartition(fs: seq<Feature>)
    requires forall i :: 0 <= i < |fs| ==> IsLabelled(fs[i])
    ensures multiset(FilterClass(fs, "Dense")) + multiset(FilterClass(fs, "Moderate"))
      + multiset(FilterClass(fs, "Sparse")) + multiset(FilterClass(fs, "Built-up"))
      == multiset(fs)
    ensures |FilterClass(fs, "Dense")| + |FilterClass(fs, "Moderate")|
      + |FilterClass(fs, "Sparse")| + |FilterClass(fs, "Built-up")| == |fs|
  {
    if fs != [] {
      var f, rest := fs[0], fs[1..];
      FiltersPartition(rest);
      assert fs == [f] + rest;
      var c :| HasClass(f, ClassName(c));
      // `f` joins exactly the layer of `c`; the other three filters skip it.
      FilterStep(fs, "Dense");
      FilterStep(fs, "Moderate");
      FilterStep(fs, "Sparse");
      FilterStep(fs, "Built-up");
    }
  }

  /** One unfolding of a filter, stated on multisets. */
  lemma FilterStep(fs: seq<Feature>, name: string)
    requires fs != []
    ensures multiset(FilterClass(fs, name))
      == (if HasClass(fs[0], name) then multiset{fs[0]} else multiset{}) + multiset(FilterClass(fs[1..], name))
  {
  }

  /**
   * A filter keeps every matching feature as often as the collection holds
   * it, duplicates included, and no other feature.
   */
  lemma {:induction false} FilterMultiset(fs: seq<Feature>, name: string)
    ensures forall f :: multiset(FilterClass(fs, name))[f] == if HasClass(f, name) then multiset(fs)[f] else 0
  {
    if fs != [] {
      FilterMultiset(fs[1..], name);
      assert fs == [fs[0]] + fs[1..];
      FilterStep(fs, name);
    }
  }

  /**
   * The four point layers of app.py: each classified sample lies in the layer
   * of its class and in no other, and the layers together hold every
   * classified sample once.
   */
  lemma PointLayers(samples: seq<Feature>)
    requires AllSamples(samples)
    ensures var pts := ClassifyPoints(samples);
      && |FilterClass(pts, "Dense")| + |FilterClass(pts, "Moderate")|
         + |FilterClass(pts, "Sparse")| + |FilterClass(pts, "Built-up")| == |samples|
      && forall i, c :: 0 <= i < |samples| ==>
           (pts[i] in FilterClass(pts, ClassName(c)) <==> c == Label(Ndvi(samples[i])))
  {
  }

  /**
   * A sample and the composite pixel it was drawn from are classified alike:
   * the sample's label names exactly the mask that holds at that pixel.
   */
  lemma PointAgreesWithPixel(img: Image, i: nat, f: Feature)
    requires i < |img| && IsSample(f) && Ndvi(f) == img[i]
    ensures forall c :: HasClass(ClassifyPoint(f), ClassName(c)) <==> ClassifyRaster(img).Layer(c)[i]
  {
  }
}
