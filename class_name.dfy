/** The target-language type reference: a package, a raw class name and an
    optional list of generic type arguments. Equality is structural. */
module ClassNames {
  import opened Text

  datatype ClassName = ClassName(packageName: string, rawClassName: string, typeArguments: TypeArguments)

  /** `getTypeArguments()`: either no array at all (null) or an array of
      type arguments, possibly empty. */
  datatype TypeArguments = NoTypeArguments | TypeArguments(list: seq<ClassName>)

  /** The type arguments as a list; no array and an empty array both give []. */
  function Arguments(c: ClassName): seq<ClassName>
  {
    match c.typeArguments
    case NoTypeArguments => []
    case TypeArguments(xs) => xs
  }

  /** The package of the types that Java makes available without an import. */
  const JavaLang: string := "java.lang"

  /** The import key `package + "." + rawClassName` of a name. */
  function Qualified(c: ClassName): string
  {
    c.packageName + "." + c.rawClassName
  }

  /** `ClassName.create(String.class)` */
  const StringClass: ClassName := ClassName(JavaLang, "String", NoTypeArguments)
  /** `ClassName.create(Object.class)` */
  const ObjectClass: ClassName := ClassName(JavaLang, "Object", NoTypeArguments)
  /** `ClassName.create(Override.class)` */
  const OverrideClass: ClassName := ClassName(JavaLang, "Override", NoTypeArguments)
  /** `ClassName.create(Objects.class)` */
  const ObjectsClass: ClassName := ClassName("java.util", "Objects", NoTypeArguments)
  /** `ClassName.create(Integer.TYPE)`: a primitive type has no package. */
  const IntType: ClassName := ClassName("", "int", NoTypeArguments)
  /** `ClassName.create(Boolean.TYPE)` */
  const BooleanType: ClassName := ClassName("", "boolean", NoTypeArguments)

  /** No raw class name in `c`, its type arguments included, contains a dot:
      the shape `ClassName.parse` produces, since it splits at the last dot. */
  predicate DotFree(c: ClassName)
  {
    '.' !in c.rawClassName &&
    match c.typeArguments
    case NoTypeArguments => true
    case TypeArguments(xs) => forall i :: 0 <= i < |xs| ==> DotFree(xs[i])
  }

  /** The canonical text of a name, `pkg.Raw<pkg2.Arg1,pkg2.Arg2>`, used as
      its `toString()`. */
  function Format(c: ClassName): (r: string)
    ensures Arguments(c) == [] && c.packageName == "" ==> r == c.rawClassName
    ensures Arguments(c) == [] && c.packageName != "" ==> r == Qualified(c)
    ensures Arguments(c) != [] ==> |r| > 0 && r[|r| - 1] == '>'
  {
    (if c.packageName == "" then c.rawClassName else Qualified(c)) +
    match c.typeArguments
    case NoTypeArguments => ""
    case TypeArguments(xs) =>
      if xs == [] then ""
      else "<" + Join(",", seq(|xs|, i requires 0 <= i < |xs| => Format(xs[i]))) + ">"
  }

  /** Position of the last '.' in `s`, or -1 when there is none. */
  function LastDot(s: string): (r: int)
    ensures -1 <= r < |s|
  {
    if s == [] then -1 else if s[|s| - 1] == '.' then |s| - 1 else LastDot(s[..|s| - 1])
  }

  /** The last dot of a key `package + "." + raw` with a dot-free raw name is
      the one after the package. */
  lemma {:induction false} LastDotOfQualified(p: string, r: string)
    requires '.' !in r
    ensures LastDot(p + "." + r) == |p|
  {
    if r != [] {
      var s := p + "." + r;
      assert s[|s| - 1] == r[|r| - 1];
      assert s[..|s| - 1] == p + "." + r[..|r| - 1];
      LastDotOfQualified(p, r[..|r| - 1]);
    }
  }

  /** Nothing after the last dot is a dot, and the last dot is a dot. */
  lemma {:induction false} LastDotSplits(s: string)
    ensures '.' !in s[LastDot(s) + 1..]
    ensures LastDot(s) >= 0 ==> s[LastDot(s)] == '.'
  {
    if s != [] && s[|s| - 1] != '.' {
      var init := s[..|s| - 1];
      var i := LastDot(init);
      LastDotSplits(init);
      assert LastDot(s) == i;
      assert s[i + 1..] == init[i + 1..] + [s[|s| - 1]];
      assert i >= 0 ==> s[i] == init[i];
    }
  }

  /** A key `p + "." + r` has its last dot no earlier than the one after `p`. */
  lemma {:induction false} LastDotAfterPackage(p: string, r: string)
    ensures LastDot(p + "." + r) >= |p|
  {
    if r != [] {
      var s := p + "." + r;
      assert s[..|s| - 1] == p + "." + r[..|r| - 1];
      LastDotAfterPackage(p, r[..|r| - 1]);
    }
  }

  /** `ClassName.parse` for text without type arguments: the package is
      everything before the last dot, the raw name everything after it; with
      no dot the package is empty. */
  function Parse(s: string): (c: ClassName)
    ensures c.typeArguments == NoTypeArguments
    ensures '.' !in c.rawClassName
    ensures LastDot(s) < 0 ==> c.packageName == "" && c.rawClassName == s
    ensures LastDot(s) >= 0 ==> Qualified(c) == s
  {
    var i := LastDot(s);
    LastDotSplits(s);
    if i < 0 then ClassName("", s, NoTypeArguments)
    else
      assert s == s[..i] + "." + s[i + 1..];
      ClassName(s[..i], s[i + 1..], NoTypeArguments)
  }

  /** Parsing undoes qualification: a name without type arguments whose raw
      name is dot-free comes back from its import key unchanged. */
  lemma ParseQualified(c: ClassName)
    requires c.typeArguments == NoTypeArguments && '.' !in c.rawClassName
    ensures Parse(Qualified(c)) == c
  {
    LastDotOfQualified(c.packageName, c.rawClassName);
    var s := Qualified(c);
    assert s[..|c.packageName|] == c.packageName;
    assert s[|c.packageName| + 1..] == c.rawClassName;
  }

  /** The canonical text of a name without type arguments parses back to
      that name, with or without a package. */
  lemma FormatParses(c: ClassName)
    requires c.typeArguments == NoTypeArguments && '.' !in c.rawClassName
    ensures Parse(Format(c)) == c
  {
    if c.packageName == "" {
      LastDotSplits(c.rawClassName);
    } else {
      ParseQualified(c);
    }
  }

  /** Splitting a qualified name at its last dot is unambiguous: two
      dot-free raw names that give the same key have the same package and
      the same raw name. */
  lemma QualifiedInjective(p1: string, r1: string, p2: string, r2: string)
    requires '.' !in r1 && '.' !in r2
    requires p1 + "." + r1 == p2 + "." + r2
    ensures p1 == p2 && r1 == r2
  {
    var k := p1 + "." + r1;
    LastDotOfQualified(p1, r1);
    LastDotOfQualified(p2, r2);
    assert p1 == k[..|p1|] == p2;
    assert r1 == k[|p1| + 1..] == r2;
  }

  /** Two keys with the same raw name differ exactly when their packages do. */
  lemma QualifiedSameRaw(p1: string, p2: string, r: string)
    ensures p1 + "." + r == p2 + "." + r <==> p1 == p2
  {
    if p1 + "." + r == p2 + "." + r {
      var k := p1 + "." + r;
      assert p1 == k[..|k| - |r| - 1] == p2;
    }
  }
}
