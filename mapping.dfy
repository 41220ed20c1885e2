/** The mapping of one schema type to Java: a mutable record with one piece
    of logic, the fallback from the name of the class to generate to the
    name used for references. `null` fields are `None`. */
module Mappings {
  import opened Wrappers
  import opened ClassNames

  /** A `java.net.URI`: absolute exactly when it has a scheme; its text is
      `scheme:rest`, or `rest` alone for a relative reference. */
  datatype Uri = Uri(scheme: Option<string>, rest: string)
  {
    predicate IsAbsolute()
    {
      scheme.Some?
    }

    function Text(): (r: string)
      ensures scheme.None? ==> r == rest
      ensures scheme.Some? ==> r == scheme.value + ":" + rest
    {
      match scheme
      case None => rest
      case Some(s) => s + ":" + rest
    }
  }

  /** A member modifier, by its keyword. */
  datatype Modifier = Modifier(keyword: string)

  /** String concatenation of a possibly-null reference. */
  function UriText(u: Option<Uri>): string
  {
    match u
    case None => "null"
    case Some(x) => x.Text()
  }

  function NameText(c: Option<ClassName>): string
  {
    match c
    case None => "null"
    case Some(x) => Format(x)
  }

  /** Where the two parts sit in `Mapping(<u> -> <n>)`. */
  lemma MappingTextParts(u: string, n: string)
    ensures var s := "Mapping(" + u + " -> " + n + ")";
            |s| == |u| + |n| + 13 && s[..8] == "Mapping(" && s[|s| - 1] == ')' &&
            s[8..8 + |u|] == u && s[8 + |u|..12 + |u|] == " -> " && s[12 + |u|..|s| - 1] == n
  {
    var s := "Mapping(" + u + " -> " + n + ")";
    assert s == "Mapping(" + (u + (" -> " + (n + ")")));
  }

  class Mapping {
    var target: Option<Uri>
    /** The name used when referencing the type. */
    var className: Option<ClassName>
    /** The name of the class to generate, when it differs from `className`. */
    var generatedClassName: Option<ClassName>
    var extendedClass: Option<ClassName>
    var implementedInterfaces: Option<seq<ClassName>>
    var ignoreAdditionalProperties: bool
    var modifiers: Option<seq<Modifier>>

    /** The no-argument constructor: every reference null, the flag false. */
    constructor Empty()
      ensures target == None && className == None && generatedClassName == None
      ensures extendedClass == None && implementedInterfaces == None
      ensures !ignoreAdditionalProperties && modifiers == None
    {
      target := None;
      className := None;
      generatedClassName := None;
      extendedClass := None;
      implementedInterfaces := None;
      ignoreAdditionalProperties := false;
      modifiers := None;
    }

    /** Sets the target and the class name only, either of which may be
        null; the class to generate is then the referenced class itself. */
    constructor (target: Option<Uri>, className: Option<ClassName>)
      ensures this.target == target && this.className == className
      ensures generatedClassName == None && extendedClass == None && implementedInterfaces == None
      ensures !ignoreAdditionalProperties && modifiers == None
      ensures GetGeneratedClassName() == className
    {
      this.target := target;
      this.className := className;
      generatedClassName := None;
      extendedClass := None;
      implementedInterfaces := None;
      ignoreAdditionalProperties := false;
      modifiers := None;
    }

    function GetTarget(): Option<Uri>
      reads this`target
    {
      target
    }

    function GetClassName(): Option<ClassName>
      reads this`className
    {
      className
    }

    /** The explicit name of the class to generate when there is one, the
        referenced class name otherwise; null only when both are. */
    function GetGeneratedClassName(): (r: Option<ClassName>)
      reads this`generatedClassName, this`className
      ensures generatedClassName.Some? ==> r == generatedClassName
      ensures generatedClassName.None? ==> r == className
      ensures r.None? <==> generatedClassName.None? && className.None?
    {
      if generatedClassName.Some? then generatedClassName else GetClassName()
    }

    function GetExtends(): Option<ClassName>
      reads this`extendedClass
    {
      extendedClass
    }

    function GetImplements(): Option<seq<ClassName>>
      reads this`implementedInterfaces
    {
      implementedInterfaces
    }

    function IsIgnoreAdditionalProperties(): bool
      reads this`ignoreAdditionalProperties
    {
      ignoreAdditionalProperties
    }

    function GetModifiers(): Option<seq<Modifier>>
      reads this`modifiers
    {
      modifiers
    }

    method SetTarget(target: Option<Uri>)
      modifies this`target
      ensures GetTarget() == target
    {
      this.target := target;
    }

    /** Changes the referenced name; the name of the class to generate
        follows it only while no explicit one is set. */
    method SetClassName(className: Option<ClassName>)
      modifies this`className
      ensures GetClassName() == className
      ensures generatedClassName.Some? ==> GetGeneratedClassName() == old(GetGeneratedClassName())
      ensures generatedClassName.None? ==> GetGeneratedClassName() == className
    {
      this.className := className;
    }

    /** An explicit name wins over the referenced one; setting null brings
        the fallback back. */
    method SetGeneratedClassName(generatedClassName: Option<ClassName>)
      modifies this`generatedClassName
      ensures generatedClassName.Some? ==> GetGeneratedClassName() == generatedClassName
      ensures generatedClassName.None? ==> GetGeneratedClassName() == GetClassName()
      ensures GetClassName() == old(GetClassName())
    {
      this.generatedClassName := generatedClassName;
    }

    method SetExtends(extendedClass: Option<ClassName>)
      modifies this`extendedClass
      ensures GetExtends() == extendedClass
    {
      this.extendedClass := extendedClass;
    }

    method SetImplements(implementedInterfaces: Option<seq<ClassName>>)
      modifies this`implementedInterfaces
      ensures GetImplements() == implementedInterfaces
    {
      this.implementedInterfaces := implementedInterfaces;
    }

    method SetIgnoreAdditionalProperties(ignoreAdditionalProperties: bool)
      modifies this`ignoreAdditionalProperties
      ensures IsIgnoreAdditionalProperties() == ignoreAdditionalProperties
    {
      this.ignoreAdditionalProperties := ignoreAdditionalProperties;
    }

    method SetModifiers(modifiers: Option<seq<Modifier>>)
      modifies this`modifiers
      ensures GetModifiers() == modifiers
    {
      this.modifiers := modifiers;
    }

    /** `Mapping(<target> -> <className>)`, with "null" for a missing part:
        the target's text right after the opening, the class name's right
        before the closing parenthesis. */
    function ToString(): (r: string)
      reads this`target, this`className
      ensures |r| == |UriText(target)| + |NameText(className)| + 13
      ensures r[..8] == "Mapping(" && r[|r| - 1] == ')'
      ensures r[8..8 + |UriText(target)|] == UriText(target)
      ensures r[8 + |UriText(target)|..12 + |UriText(target)|] == " -> "
      ensures r[12 + |UriText(target)|..|r| - 1] == NameText(className)
    {
      MappingTextParts(UriText(target), NameText(className));
      "Mapping(" + UriText(target) + " -> " + NameText(className) + ")"
    }
  }
}
