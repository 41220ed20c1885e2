/** The state every generator shares for one run: the typed feature
    settings, the table from type URI to mapping, and the table from base URI
    to default package name. */
module Generators {
  import opened Wrappers
  import opened Mappings
  import opened JavaWriting

  /** The two value types the known features carry: a text (the default
      package name) or a declaration kind (the enum style). */
  datatype FeatureValue = TextValue(text: string) | KindValue(kind: Kind)

  /** A feature key: the name it is stored under and the value it stands for
      while unset. */
  datatype Feature = Feature(name: string, defaultValue: FeatureValue)

  /** A value of the type a feature is declared with. */
  predicate Conforms(f: Feature, v: FeatureValue)
  {
    v.TextValue? == f.defaultValue.TextValue?
  }

  class Generator {
    var features: map<string, FeatureValue>
    /** A stored `None` is a null mapping put under that URI. */
    var mappings: map<Uri, Option<Mapping>>
    /** Recorded by `addDefaultPackageName`; nothing reads it. */
    var defaultPackageNames: map<Uri, string>
    /** `FEATURE_DEFAULT_PACKAGE_NAME`, a text-valued feature. */
    const defaultPackageFeature: Feature

    /** The value stored for the default package name is a text, as the
        feature's type demands. */
    ghost predicate Valid()
      reads this`features
    {
      defaultPackageFeature.defaultValue.TextValue? &&
      (defaultPackageFeature.name in features ==> features[defaultPackageFeature.name].TextValue?)
    }

    constructor (defaultPackageFeature: Feature)
      requires defaultPackageFeature.defaultValue.TextValue?
      ensures this.defaultPackageFeature == defaultPackageFeature
      ensures features == map[] && mappings == map[] && defaultPackageNames == map[]
      ensures Valid()
    {
      this.defaultPackageFeature := defaultPackageFeature;
      features := map[];
      mappings := map[];
      defaultPackageNames := map[];
    }

    /** The value set for `feature`, or its default while none is. */
    function GetFeature(feature: Feature): (r: FeatureValue)
      reads this`features
      ensures feature.name in features ==> r == features[feature.name]
      ensures feature.name !in features ==> r == feature.defaultValue
    {
      if feature.name in features then features[feature.name] else feature.defaultValue
    }

    /** Stores `value` for `feature` and gives back the value it had. */
    method SetFeature(feature: Feature, value: FeatureValue) returns (previous: FeatureValue)
      requires Conforms(feature, value)
      requires feature.name == defaultPackageFeature.name ==> value.TextValue?
      modifies this`features
      ensures features == old(features)[feature.name := value]
      ensures previous == old(GetFeature(feature))
      ensures GetFeature(feature) == value
      ensures forall g: Feature :: g.name != feature.name ==> GetFeature(g) == old(GetFeature(g))
      ensures old(Valid()) ==> Valid()
    {
      previous := GetFeature(feature);
      features := features[feature.name := value];
    }

    /** Records `mapping`, possibly null, for exactly the key `typeUri`,
        replacing an earlier one; a relative URI is stored all the same, and
        `warned` says that the warning was due. */
    method AddMapping(typeUri: Uri, mapping: Option<Mapping>) returns (warned: bool)
      modifies this`mappings
      ensures warned == !typeUri.IsAbsolute()
      ensures mappings == old(mappings)[typeUri := mapping]
      ensures GetMapping(typeUri) == mapping
      ensures forall v :: v != typeUri ==> GetMapping(v) == old(GetMapping(v))
    {
      warned := !typeUri.IsAbsolute();
      mappings := mappings[typeUri := mapping];
    }

    /** The mapping recorded for exactly `typeUri`; null when none was put
        under that key or null was. */
    function GetMapping(typeUri: Uri): (r: Option<Mapping>)
      reads this`mappings
      ensures typeUri !in mappings ==> r.None?
      ensures typeUri in mappings ==> r == mappings[typeUri]
      ensures r.Some? <==> typeUri in mappings && mappings[typeUri].Some?
    {
      if typeUri in mappings then mappings[typeUri] else None
    }

    method AddDefaultPackageName(baseUri: Uri, packageName: string)
      modifies this`defaultPackageNames
      ensures defaultPackageNames == old(defaultPackageNames)[baseUri := packageName]
      ensures old(Valid()) ==> Valid() && forall t :: GetDefaultPackageName(t) == old(GetDefaultPackageName(t))
    {
      defaultPackageNames := defaultPackageNames[baseUri := packageName];
    }

    /** The package for `typeUri`: the default-package feature in every case,
        whatever the type and whatever `addDefaultPackageName` recorded. */
    function GetDefaultPackageName(typeUri: Uri): (r: string)
      requires Valid()
      reads this`features
      ensures GetFeature(defaultPackageFeature) == TextValue(r)
    {
      GetFeature(defaultPackageFeature).text
    }
  }
}
