/** The strategy for JSON-schema strings: a schema without an `enum` member
    is a plain `java.lang.String`; one with an `enum` array of texts becomes
    a declaration with one constant per text, written either as a class with
    public static constants or as a Java enum. */
module PojoStrings {
  import opened Wrappers
  import opened Text
  import opened ClassNames
  import opened Imports
  import opened JavaWriting

  /** The parts of a JSON node the strategy tells apart. */
  datatype Json = JNull | JText(text: string) | JArray(elements: seq<Json>) | JOther

  /** A schema node, reduced to its `enum` member: `None` when there is none. */
  datatype Schema = Schema(enumMember: Option<Json>)

  /** `hasNonNull("enum")`: the member is present and not JSON null. */
  predicate HasNonNullEnum(schema: Schema)
  {
    schema.enumMember.Some? && schema.enumMember.value != JNull
  }

  /** What `generate` decides: a plain string type, or a declaration left to
      the shared type-generation machinery, which calls `generateType`. */
  datatype Resolution = PlainString(className: ClassName) | Declaration

  /** Why a declaration could not be generated. */
  datatype Cause = EnumNotArray(found: Json) | InvalidEnumStyle(style: Kind) | NonTextualEnumValue(found: Json)

  /** `CodeGenerationException`, tagged with the type being generated. */
  datatype CodeGenerationException = CodeGenerationException(contextType: string, cause: Cause)

  datatype Outcome = Completed | Failed(error: CodeGenerationException)

  /** The two emitters: `ClassEnumGenerator` and `EnumEnumGenerator`. */
  datatype Style = ClassStyle | EnumStyle

  /** A schema without a non-null `enum` is a plain string and needs no
      declaration; any other schema needs one. */
  function Generate(schema: Schema): (r: Resolution)
    ensures r.PlainString? <==> !HasNonNullEnum(schema)
    ensures r.PlainString? ==> r.className == StringClass
  {
    if !HasNonNullEnum(schema) then PlainString(StringClass) else Declaration
  }

  /** The style switch: CLASS and ENUM name an emitter, nothing else does. */
  function StyleOf(kind: Kind): (r: Option<Style>)
    ensures r == Some(ClassStyle) <==> kind == Class
    ensures r == Some(EnumStyle) <==> kind == Enum
    ensures r.None? <==> kind.OtherKind?
  {
    match kind
    case Class => Some(ClassStyle)
    case Enum => Some(EnumStyle)
    case OtherKind(_) => None
  }

  /** The constructor of the value holder is public for the class style and
      private for an enum. */
  function ConstructorVisibility(style: Style): Visibility
  {
    if style == ClassStyle then Public else Private
  }

  /** Each element is a JSON text. */
  predicate AllText(es: seq<Json>)
  {
    forall j :: 0 <= j < |es| ==> es[j].JText?
  }

  /** The position of the first element that is not a text, or the length
      when there is none. */
  function FirstNonText(es: seq<Json>): (r: nat)
    ensures r <= |es|
    ensures AllText(es[..r])
    ensures r < |es| ==> !es[r].JText?
  {
    if es == [] then 0
    else if !es[0].JText? then 0
    else
      var r := 1 + FirstNonText(es[1..]);
      assert forall j :: 1 <= j < r ==> es[j] == es[1..][j - 1];
      r
  }

  /** The two properties of `FirstNonText` determine it: a position up to
      which all values are texts and where a non-text (or the end) follows is
      the first non-text. */
  lemma {:induction false} FirstNonTextUnique(es: seq<Json>, k: nat)
    requires k <= |es| && AllText(es[..k])
    requires k < |es| ==> !es[k].JText?
    ensures FirstNonText(es) == k
  {
    if es != [] && k > 0 {
      assert es[0] == es[..k][0];
      assert es[1..][..k - 1] == es[..k][1..];
      FirstNonTextUnique(es[1..], k - 1);
    }
  }

  function TextsOf(es: seq<Json>): (vs: seq<string>)
    requires AllText(es)
    ensures |vs| == |es|
  {
    seq(|es|, j requires 0 <= j < |es| => es[j].text)
  }

  /** `NAME("v")`: the upper-cased text, then the text as a string literal. */
  function EnumConstant(v: string): string
  {
    ToUpperAscii(v) + "(\"" + v + "\")"
  }

  /** `public static R NAME = new R("v");` */
  function ClassConstantLine(raw: string, v: string): string
  {
    "public static " + raw + " " + ToUpperAscii(v) + " = new " + raw + "(\"" + v + "\");"
  }

  function ClassConstantLines(raw: string, vs: seq<string>): (r: seq<string>)
    ensures |r| == |vs|
  {
    if vs == [] then [] else ClassConstantLines(raw, vs[..|vs| - 1]) + [ClassConstantLine(raw, vs[|vs| - 1])]
  }

  function EnumConstants(level: int, vs: seq<string>): (r: seq<string>)
    ensures |r| == |vs|
  {
    if vs == [] then [] else EnumConstants(level, vs[..|vs| - 1]) + [Tabs(level) + EnumConstant(vs[|vs| - 1])]
  }

  /** The j-th class-style line declares the j-th text. */
  lemma {:induction false} ClassConstantLinesAt(raw: string, vs: seq<string>, j: nat)
    requires j < |vs|
    ensures ClassConstantLines(raw, vs)[j] == ClassConstantLine(raw, vs[j])
  {
    if j < |vs| - 1 {
      ClassConstantLinesAt(raw, vs[..|vs| - 1], j);
    }
  }

  /** The j-th enum-style constant is the j-th text, indented. */
  lemma {:induction false} EnumConstantsAt(level: int, vs: seq<string>, j: nat)
    requires j < |vs|
    ensures EnumConstants(level, vs)[j] == Tabs(level) + EnumConstant(vs[j])
  {
    if j < |vs| - 1 {
      EnumConstantsAt(level, vs[..|vs| - 1], j);
    }
  }

  /** What the emitter writes for the values `vs`, one value after the
      other. */
  function ValueCode(style: Style, raw: string, level: int, vs: seq<string>): string
  {
    if vs == [] then ""
    else ValueCode(style, raw, level, vs[..|vs| - 1]) + NextValueCode(style, raw, level, |vs| == 1, vs[|vs| - 1])
  }

  /** The same text seen as whole lists: a code line per value in the class
      style; indented constants separated by ",\n" in the enum style. */
  function ValueListing(style: Style, raw: string, level: int, vs: seq<string>): string
  {
    match style
    case ClassStyle => CodeLines(level, ClassConstantLines(raw, vs))
    case EnumStyle => Join(",\n", EnumConstants(level, vs))
  }

  /** What one more value adds; `first` says no value was written before. */
  function NextValueCode(style: Style, raw: string, level: int, first: bool, v: string): string
  {
    match style
    case ClassStyle => Tabs(level) + ClassConstantLine(raw, v) + "\n"
    case EnumStyle => (if first then "" else ",\n") + (Tabs(level) + EnumConstant(v))
  }

  /** The `;` that ends the constants of an enum with at least one constant. */
  function Terminator(style: Style, wroteOneValue: bool): string
  {
    if style == EnumStyle && wroteOneValue then ";\n" else ""
  }

  /** One member of the support code, as the writer calls that produce it:
      an empty line, a field, a constructor or method with its body lines, an
      annotation. */
  datatype Member =
    | BlankLine
    | FieldMember(visibility: Visibility, typeName: ClassName, name: string)
    | ConstructorMember(visibility: Visibility, params: seq<Param>, body: seq<string>)
    | MethodMember(visibility: Visibility, returnType: ClassName, name: string, params: seq<Param>, body: seq<string>)
    | AnnotationMember(annotation: ClassName)

  /** The text of one member declared inside `className` at `level`. */
  function MemberCode(t: ImportTable, activePackage: string, level: int, className: ClassName, m: Member): string
  {
    match m
    case BlankLine => "\n"
    case FieldMember(v, ty, name) => FieldLine(t, activePackage, level, v, ty, name)
    case ConstructorMember(v, ps, body) =>
      ConstructorHeader(t, activePackage, level, v, className, ps) + CodeLines(level + 1, body) + ClosingBrace(level)
    case MethodMember(v, ty, name, ps, body) =>
      MethodHeader(t, activePackage, level, v, ty, name, ps) + CodeLines(level + 1, body) + ClosingBrace(level)
    case AnnotationMember(a) => AnnotationLine(t, activePackage, level, a)
  }

  /** The text of the members `ms`, one after the other. */
  function MembersCode(t: ImportTable, activePackage: string, level: int, className: ClassName, ms: seq<Member>): string
  {
    ConcatMap(m => MemberCode(t, activePackage, level, className, m), ms)
  }

  /** `AbstractEnumGenerator.generateAdditionalCode`: the `value` field, the
      constructor that sets it, `getValue()` returning it and `toString()`
      returning `getValue()`. */
  function ValueMembers(style: Style): seq<Member>
  {
    [BlankLine,
     FieldMember(Private, StringClass, "value"),
     ConstructorMember(ConstructorVisibility(style), [Param(StringClass, "value")], ["this.value = value;"]),
     MethodMember(Public, StringClass, "getValue", [], ["return value;"]),
     AnnotationMember(OverrideClass),
     MethodMember(Public, StringClass, "toString", [], ["return getValue();"])]
  }

  function EqualsBody(raw: string): seq<string>
  {
    ["if (!(obj instanceof " + raw + ")) {",
     "\treturn false;",
     "}",
     "return Objects.equals(value, ((" + raw + ") obj).value);"]
  }

  /** What the class style adds: `hashCode()` and `equals(Object)`. */
  function EqualityMembers(raw: string): seq<Member>
  {
    [AnnotationMember(OverrideClass),
     MethodMember(Public, IntType, "hashCode", [], ["return Objects.hash(value);"]),
     AnnotationMember(OverrideClass),
     MethodMember(Public, BooleanType, "equals", [Param(ObjectClass, "obj")], EqualsBody(raw))]
  }

  /** The members `generateAdditionalCode` declares, in order. */
  function SupportMembers(style: Style, raw: string): seq<Member>
  {
    ValueMembers(style) + (if style == ClassStyle then EqualityMembers(raw) else [])
  }

  /** Everything `generateAdditionalCode` writes. */
  function SupportCode(t: ImportTable, activePackage: string, level: int, className: ClassName,
                       style: Style, wroteOneValue: bool): string
  {
    Terminator(style, wroteOneValue) + MembersCode(t, activePackage, level, className, SupportMembers(style, className.rawClassName))
  }

  /** The class style writes the members both styles share and then its own;
      the enum style writes its `;` (after at least one constant) and then
      the shared members. */
  lemma SupportCodeParts(t: ImportTable, activePackage: string, level: int, className: ClassName,
                         style: Style, wroteOneValue: bool)
    ensures SupportCode(t, activePackage, level, className, style, wroteOneValue) ==
            Terminator(style, wroteOneValue) + MembersCode(t, activePackage, level, className, ValueMembers(style)) +
            (if style == ClassStyle then MembersCode(t, activePackage, level, className, EqualityMembers(className.rawClassName)) else "")
  {
    var f := m => MemberCode(t, activePackage, level, className, m);
    var shared := ValueMembers(style);
    var own := if style == ClassStyle then EqualityMembers(className.rawClassName) else [];
    ConcatMapAppend(f, shared, own);
    Assoc(Terminator(style, wroteOneValue), ConcatMap(f, shared), ConcatMap(f, own));
  }

  lemma ValueCodeSnoc(style: Style, raw: string, level: int, vs: seq<string>, v: string)
    ensures ValueCode(style, raw, level, vs + [v]) == ValueCode(style, raw, level, vs) + NextValueCode(style, raw, level, vs == [], v)
  {
    assert (vs + [v])[..|vs|] == vs;
  }

  /** One more value extends the listing by what the emitter writes for it. */
  lemma ValueListingSnoc(style: Style, raw: string, level: int, vs: seq<string>, v: string)
    ensures ValueListing(style, raw, level, vs + [v]) == ValueListing(style, raw, level, vs) + NextValueCode(style, raw, level, vs == [], v)
  {
    match style
    case ClassStyle =>
      var lines := ClassConstantLines(raw, vs);
      assert ClassConstantLines(raw, vs + [v]) == lines + [ClassConstantLine(raw, v)] by {
        assert (vs + [v])[..|vs|] == vs;
      }
      assert (lines + [ClassConstantLine(raw, v)])[..|lines|] == lines;
      Assoc(CodeLines(level, lines), Tabs(level) + ClassConstantLine(raw, v), "\n");
      Assoc(CodeLines(level, lines), Tabs(level), ClassConstantLine(raw, v));
    case EnumStyle =>
      var cs := EnumConstants(level, vs);
      assert EnumConstants(level, vs + [v]) == cs + [Tabs(level) + EnumConstant(v)] by {
        assert (vs + [v])[..|vs|] == vs;
      }
      if vs != [] {
        JoinSnoc(",\n", cs, Tabs(level) + EnumConstant(v));
      }
  }

  /** Only the enum style looks at whether a value is the first. */
  lemma NextValueCodeFirst(style: Style, raw: string, level: int, first1: bool, first2: bool, v: string)
    requires style == EnumStyle ==> first1 == first2
    ensures NextValueCode(style, raw, level, first1, v) == NextValueCode(style, raw, level, first2, v)
  {
  }

  /** Writing the values one by one gives the listing of all of them. */
  lemma {:induction false} ValueCodeAgrees(style: Style, raw: string, level: int, vs: seq<string>)
    ensures ValueCode(style, raw, level, vs) == ValueListing(style, raw, level, vs)
  {
    if vs != [] {
      var init, v := vs[..|vs| - 1], vs[|vs| - 1];
      assert vs == init + [v];
      ValueCodeAgrees(style, raw, level, init);
      ValueCodeSnoc(style, raw, level, init, v);
      ValueListingSnoc(style, raw, level, init, v);
    }
  }

  lemma TextsOfSnoc(es: seq<Json>, i: nat)
    requires i < |es| && AllText(es[..i]) && es[i].JText?
    ensures AllText(es[..i + 1])
    ensures TextsOf(es[..i + 1]) == TextsOf(es[..i]) + [es[i].text]
  {
    assert es[..i + 1] == es[..i] + [es[i]];
  }

  /** One pass of the value loop: writing the code of one more value after
      the code of the values before it gives the code of the longer list. */
  lemma ValueStep(style: Style, raw: string, level: int, before: seq<string>, v: string,
                  out0: string, first: bool, out1: string)
    requires style == EnumStyle ==> first == (before == [])
    requires out1 == out0 + ValueCode(style, raw, level, before) + NextValueCode(style, raw, level, first, v)
    ensures out1 == out0 + ValueCode(style, raw, level, before + [v])
  {
    ValueCodeSnoc(style, raw, level, before, v);
    NextValueCodeFirst(style, raw, level, first, before == [], v);
    Assoc(out0, ValueCode(style, raw, level, before), NextValueCode(style, raw, level, before == [], v));
  }

  /** Enum style: the first constant comes first, and every later one is
      preceded by exactly one ",\n". */
  lemma {:induction false} EnumSeparators(raw: string, level: int, vs: seq<string>)
    requires vs != []
    ensures ValueCode(EnumStyle, raw, level, vs) ==
            Tabs(level) + EnumConstant(vs[0]) +
            Concat(seq(|vs| - 1, j requires 0 <= j < |vs| - 1 => ",\n" + (Tabs(level) + EnumConstant(vs[j + 1]))))
  {
    ValueCodeAgrees(EnumStyle, raw, level, vs);
    var cs := EnumConstants(level, vs);
    JoinSeparatesTail(",\n", cs);
    EnumConstantsAt(level, vs, 0);
    forall j | 1 <= j < |vs|
      ensures cs[j] == Tabs(level) + EnumConstant(vs[j])
    {
      EnumConstantsAt(level, vs, j);
    }
    assert seq(|cs| - 1, j requires 0 <= j < |cs| - 1 => ",\n" + cs[j + 1]) ==
           seq(|vs| - 1, j requires 0 <= j < |vs| - 1 => ",\n" + (Tabs(level) + EnumConstant(vs[j + 1])));
  }

  /** No comma arises from upper-casing or quoting: an enum constant holds a
      comma only if its text does. */
  lemma EnumConstantCommas(level: int, v: string)
    requires ',' !in v
    ensures Occurrences(',', Tabs(level) + EnumConstant(v)) == 0
  {
    UpperAvoids(v, ',');
    TabsOnly(level);
    var s := Tabs(level) + EnumConstant(v);
    assert ',' !in s;
    OccurrencesNone(',', s);
  }

  /** Enum style, n >= 1 comma-free texts: the values hold exactly n - 1
      commas, all of them in the ",\n" separators. */
  lemma EnumSeparatorCount(raw: string, level: int, vs: seq<string>)
    requires vs != []
    requires forall j :: 0 <= j < |vs| ==> ',' !in vs[j]
    ensures Occurrences(',', ValueCode(EnumStyle, raw, level, vs)) == |vs| - 1
  {
    ValueCodeAgrees(EnumStyle, raw, level, vs);
    var cs := EnumConstants(level, vs);
    forall j | 0 <= j < |cs|
      ensures Occurrences(',', cs[j]) == 0
    {
      EnumConstantsAt(level, vs, j);
      EnumConstantCommas(level, vs[j]);
    }
    SeparatorComma();
    JoinOccurrences(',', ",\n", cs);
  }

  /** The enum-style separator holds one comma. */
  lemma SeparatorComma()
    ensures Occurrences(',', ",\n") == 1
  {
    assert ",\n"[..1] == ",";
    assert ","[..0] == "";
  }

  /** A class-style constant line has no line break of its own. */
  lemma ClassConstantLineUnbroken(raw: string, v: string)
    requires '\n' !in raw && '\n' !in v
    ensures '\n' !in ClassConstantLine(raw, v)
  {
    UpperAvoids(v, '\n');
  }

  /** Class style: one line per text, the k-th line declaring the k-th
      constant. */
  lemma ClassConstantsOnePerLine(raw: string, level: int, vs: seq<string>)
    requires '\n' !in raw && forall j :: 0 <= j < |vs| ==> '\n' !in vs[j]
    ensures Occurrences('\n', ValueCode(ClassStyle, raw, level, vs)) == |vs|
  {
    ValueCodeAgrees(ClassStyle, raw, level, vs);
    var lines := ClassConstantLines(raw, vs);
    forall j | 0 <= j < |lines|
      ensures '\n' !in lines[j]
    {
      ClassConstantLinesAt(raw, vs, j);
      ClassConstantLineUnbroken(raw, vs[j]);
    }
    CodeLinesNewlines(level, lines);
  }

  /** One of the two emitters, with the `wroteOneValue` flag the enum style
      keeps. */
  class EnumEmitter {
    const className: ClassName
    const style: Style
    var wroteOneValue: bool

    constructor (className: ClassName, style: Style)
      ensures this.className == className && this.style == style && !wroteOneValue
    {
      this.className := className;
      this.style := style;
      wroteOneValue := false;
    }

    /** `generateEnumValue`: one constant for the text `value`. */
    method GenerateEnumValue(value: string, w: JavaWriter)
      modifies this`wroteOneValue, w`out
      ensures w.out == old(w.out) + NextValueCode(style, className.rawClassName, w.indentLevel, !old(wroteOneValue), value)
      ensures wroteOneValue == (style == EnumStyle || old(wroteOneValue))
    {
      match style
      case ClassStyle =>
        var raw := className.rawClassName;
        var line := "public static " + raw + " " + ToUpperAscii(value) + " = new " + raw + "(\"" + value + "\");";
        assert line == ClassConstantLine(raw, value);
        w.WriteCode([line]);
        CodeLinesOne(w.indentLevel, line);
      case EnumStyle =>
        ghost var separator := if wroteOneValue then ",\n" else "";
        if wroteOneValue {
          w.Write(",\n");
        }
        assert w.out == old(w.out) + separator;
        w.WriteIndent();
        var constant := ToUpperAscii(value) + "(\"" + value + "\")";
        assert constant == EnumConstant(value);
        w.Write(constant);
        Assoc(old(w.out), separator, Tabs(w.indentLevel) + constant);
        Assoc(old(w.out) + separator, Tabs(w.indentLevel), constant);
        wroteOneValue := true;
    }

    /** The loop of `generateType` over the values of `enum`: each text is
        emitted in order, and the loop stops at the first value that is not a
        text, whose position is returned (the length when all are texts). */
    method GenerateEnumValues(es: seq<Json>, w: JavaWriter) returns (k: nat)
      requires !wroteOneValue
      modifies this`wroteOneValue, w`out
      ensures k == FirstNonText(es)
      ensures w.out == old(w.out) + ValueCode(style, className.rawClassName, w.indentLevel, TextsOf(es[..k]))
      ensures wroteOneValue == (style == EnumStyle && k > 0)
    {
      k := 0;
      while k < |es|
        invariant 0 <= k <= |es| && AllText(es[..k])
        invariant w.out == old(w.out) + ValueCode(style, className.rawClassName, w.indentLevel, TextsOf(es[..k]))
        invariant wroteOneValue == (style == EnumStyle && k > 0)
      {
        var enumValue := es[k];
        if !enumValue.JText? {
          break;
        }
        var value := enumValue.text;
        ghost var before := TextsOf(es[..k]);
        ghost var first := !wroteOneValue;
        GenerateEnumValue(value, w);
        TextsOfSnoc(es, k);
        ValueStep(style, className.rawClassName, w.indentLevel, before, value, old(w.out), first, w.out);
        k := k + 1;
      }
      FirstNonTextUnique(es, k);
    }

    /** `generateAdditionalCode`. The enum style's `assert wroteOneValue`
      does not stop anything (assertions are off by default); its verdict
      is returned. */
    method GenerateAdditionalCode(w: JavaWriter) returns (assertionHeld: bool)
      modifies w`out, w`indentLevel
      ensures assertionHeld == (style == ClassStyle || wroteOneValue)
      ensures w.indentLevel == old(w.indentLevel)
      ensures w.out == old(w.out) + SupportCode(w.importedClassNames, w.packageName, w.indentLevel, className, style, wroteOneValue)
    {
      ghost var t, p, level := w.importedClassNames, w.packageName, w.indentLevel;
      assertionHeld := true;
      ghost var terminator := Terminator(style, wroteOneValue);
      if style == EnumStyle {
        assertionHeld := wroteOneValue;
        if wroteOneValue {
          w.Write(";\n");
        }
      }
      assert w.out == old(w.out) + terminator;
      var members := SupportMembers(style, className.rawClassName);
      WriteMembers(w, members);
      Assoc(old(w.out), terminator, MembersCode(t, p, level, className, members));
    }

    /** The members `ms`, one after the other. */
    method WriteMembers(w: JavaWriter, ms: seq<Member>)
      modifies w`out, w`indentLevel
      ensures w.indentLevel == old(w.indentLevel)
      ensures w.out == old(w.out) + MembersCode(w.importedClassNames, w.packageName, w.indentLevel, className, ms)
    {
      ghost var t, p, level := w.importedClassNames, w.packageName, w.indentLevel;
      var i := 0;
      while i < |ms|
        invariant 0 <= i <= |ms|
        invariant w.indentLevel == level
        invariant w.out == old(w.out) + MembersCode(t, p, level, className, ms[..i])
      {
        WriteMember(w, ms[i]);
        MembersStep(old(w.out), t, p, level, className, ms[..i], ms[i]);
        assert ms[..i + 1] == ms[..i] + [ms[i]];
        i := i + 1;
      }
      assert ms[..i] == ms;
    }

    /** The writer calls that produce one member. */
    method WriteMember(w: JavaWriter, m: Member)
      modifies w`out, w`indentLevel
      ensures w.indentLevel == old(w.indentLevel)
      ensures w.out == old(w.out) + MemberCode(w.importedClassNames, w.packageName, w.indentLevel, className, m)
    {
      match m
      case BlankLine =>
        w.WriteEmptyLine();
      case FieldMember(v, ty, name) =>
        w.WriteField(v, ty, name);
      case ConstructorMember(v, ps, body) =>
        ghost var header := ConstructorHeader(w.importedClassNames, w.packageName, w.indentLevel, v, className, ps);
        w.WriteConstructorBodyStart(v, className, ps);
        w.WriteCode(body);
        w.WriteMethodBodyEnd();
        Assoc(old(w.out), header, CodeLines(w.indentLevel + 1, body));
        Assoc(old(w.out), header + CodeLines(w.indentLevel + 1, body), ClosingBrace(w.indentLevel));
      case MethodMember(v, ty, name, ps, body) =>
        ghost var header := MethodHeader(w.importedClassNames, w.packageName, w.indentLevel, v, ty, name, ps);
        w.WriteMethodBodyStart(v, ty, name, ps);
        w.WriteCode(body);
        w.WriteMethodBodyEnd();
        Assoc(old(w.out), header, CodeLines(w.indentLevel + 1, body));
        Assoc(old(w.out), header + CodeLines(w.indentLevel + 1, body), ClosingBrace(w.indentLevel));
      case AnnotationMember(a) =>
        w.WriteAnnotation(a);
    }
  }

  /** After the text of `done` the text of `m`: the text of `done + [m]`. */
  lemma MembersStep(start: string, t: ImportTable, activePackage: string, level: int, className: ClassName, done: seq<Member>, m: Member)
    ensures start + MembersCode(t, activePackage, level, className, done) + MemberCode(t, activePackage, level, className, m) ==
            start + MembersCode(t, activePackage, level, className, done + [m])
  {
    var f := m => MemberCode(t, activePackage, level, className, m);
    ConcatMapSnoc(f, done, m);
    Assoc(start, ConcatMap(f, done), f(m));
  }

  /** `generateType`: validates the `enum` member and the style, then writes
      the declaration. Both validation failures leave the writer untouched. */
  method GenerateType(w: JavaWriter, contextType: string, className: ClassName, schema: Schema, enumStyle: Kind)
    returns (outcome: Outcome, assertionHeld: bool)
    requires schema.enumMember.Some?
    modifies w`out, w`importedClassNames, w`importsFlushed, w`indentLevel, w`currentClassNames
    ensures w.indentLevel == old(w.indentLevel) && w.currentClassNames == old(w.currentClassNames)
    ensures old(w.Valid()) ==> w.Valid()
    ensures !schema.enumMember.value.JArray? ==>
              outcome == Failed(CodeGenerationException(contextType, EnumNotArray(schema.enumMember.value))) &&
              w.out == old(w.out) && w.importedClassNames == old(w.importedClassNames) &&
              w.importsFlushed == old(w.importsFlushed) && assertionHeld
    ensures schema.enumMember.value.JArray? && StyleOf(enumStyle).None? ==>
              outcome == Failed(CodeGenerationException(contextType, InvalidEnumStyle(enumStyle))) &&
              w.out == old(w.out) && w.importedClassNames == old(w.importedClassNames) &&
              w.importsFlushed == old(w.importsFlushed) && assertionHeld
    ensures schema.enumMember.value.JArray? && StyleOf(enumStyle).Some? ==>
              Declared(w, old(w.out), old(w.importedClassNames), old(w.importsFlushed), old(w.indentLevel),
                       contextType, className, StyleOf(enumStyle).value, enumStyle, schema.enumMember.value.elements,
                       outcome, assertionHeld)
  {
    var enumValues := schema.enumMember.value;
    if !enumValues.JArray? {
      return Failed(CodeGenerationException(contextType, EnumNotArray(enumValues))), true;
    }
    var style: Style;
    match enumStyle {
      case Class => style := ClassStyle;
      case Enum => style := EnumStyle;
      case OtherKind(_) =>
        return Failed(CodeGenerationException(contextType, InvalidEnumStyle(enumStyle))), true;
    }
    outcome, assertionHeld := WriteDeclaration(w, contextType, className, style, enumStyle, enumValues.elements);
  }

  /** The writer's state after `generateType` has written the declaration of
      `className` for the values `es`: `java.util.Objects` offered for
      import, the class opened, the values emitted in order up to the first
      that is not a text, the support code when all were texts, and the class
      closed on every path. Output already written is not taken back on a
      failure. */
  ghost predicate Declared(w: JavaWriter, out0: string, t0: ImportTable, flushed0: bool, level: int,
                           contextType: string, className: ClassName, style: Style, enumStyle: Kind, es: seq<Json>,
                           outcome: Outcome, assertionHeld: bool)
    reads w
  {
    var k := FirstNonText(es);
    var t := Offer(t0, w.packageName, ObjectsClass);
    w.importedClassNames == t &&
    w.importsFlushed == (flushed0 || |t| != 0) &&
    outcome == (if k == |es| then Completed else Failed(CodeGenerationException(contextType, NonTextualEnumValue(es[k])))) &&
    assertionHeld == (k < |es| || style == ClassStyle || |es| > 0) &&
    w.out == out0 + PendingImports(flushed0, t) +
             PlainClassHeader(level, className, enumStyle, Public) +
             ValueCode(style, className.rawClassName, level + 1, TextsOf(es[..k])) +
             (if k == |es| then SupportCode(t, w.packageName, level + 1, className, style, style == EnumStyle && k > 0) else "") +
             ClosingBrace(level)
  }

  /** What a declared state tells the caller: the run completes exactly when
      every `enum` value is a text; a failure names a non-text value of the
      array; and the ENUM style's assertion fails exactly for an empty
      array. */
  lemma DeclaredOutcome(w: JavaWriter, out0: string, t0: ImportTable, flushed0: bool, level: int,
                        contextType: string, className: ClassName, style: Style, enumStyle: Kind, es: seq<Json>,
                        outcome: Outcome, assertionHeld: bool)
    requires Declared(w, out0, t0, flushed0, level, contextType, className, style, enumStyle, es, outcome, assertionHeld)
    ensures outcome == Completed <==> AllText(es)
    ensures outcome.Failed? ==>
              outcome.error.contextType == contextType && outcome.error.cause.NonTextualEnumValue? &&
              outcome.error.cause.found in es && !outcome.error.cause.found.JText?
    ensures !assertionHeld <==> style == EnumStyle && es == []
  {
    var k := FirstNonText(es);
    if k == |es| {
      assert es[..k] == es;
    }
  }

  method WriteDeclaration(w: JavaWriter, contextType: string, className: ClassName, style: Style, enumStyle: Kind, es: seq<Json>)
    returns (outcome: Outcome, assertionHeld: bool)
    requires StyleOf(enumStyle) == Some(style)
    modifies w`out, w`importedClassNames, w`importsFlushed, w`indentLevel, w`currentClassNames
    ensures w.indentLevel == old(w.indentLevel) && w.currentClassNames == old(w.currentClassNames)
    ensures old(w.Valid()) ==> w.Valid()
    ensures Declared(w, old(w.out), old(w.importedClassNames), old(w.importsFlushed), old(w.indentLevel),
                     contextType, className, style, enumStyle, es, outcome, assertionHeld)
  {
    OpenDeclaration(w, className, enumStyle);
    outcome, assertionHeld := WriteBodyAndEnd(w, contextType, className, style, es);
  }

  /** The body of the declaration, then its closing brace. */
  method WriteBodyAndEnd(w: JavaWriter, contextType: string, className: ClassName, style: Style, es: seq<Json>)
    returns (outcome: Outcome, assertionHeld: bool)
    requires w.currentClassNames != []
    modifies w`out, w`indentLevel, w`currentClassNames
    ensures w.indentLevel == old(w.indentLevel) - 1
    ensures w.currentClassNames == old(w.currentClassNames)[..|old(w.currentClassNames)| - 1]
    ensures var k := FirstNonText(es);
            outcome == (if k == |es| then Completed else Failed(CodeGenerationException(contextType, NonTextualEnumValue(es[k])))) &&
            assertionHeld == (k < |es| || style == ClassStyle || |es| > 0) &&
            w.out == old(w.out) + ValueCode(style, className.rawClassName, old(w.indentLevel), TextsOf(es[..k])) +
                     (if k == |es| then SupportCode(w.importedClassNames, w.packageName, old(w.indentLevel), className, style, style == EnumStyle && k > 0) else "") +
                     ClosingBrace(w.indentLevel)
  {
    outcome, assertionHeld := WriteBody(w, contextType, className, style, es);
    var emptyStack := w.WriteClassEnd();
  }

  /** `java.util.Objects` offered for import, then the class opened: the
      pending imports flushed and the header written. */
  method OpenDeclaration(w: JavaWriter, className: ClassName, enumStyle: Kind)
    modifies w`out, w`importedClassNames, w`importsFlushed, w`indentLevel, w`currentClassNames
    ensures old(w.Valid()) ==> w.Valid()
    ensures w.importedClassNames == Offer(old(w.importedClassNames), w.packageName, ObjectsClass)
    ensures w.importsFlushed == (old(w.importsFlushed) || |w.importedClassNames| != 0)
    ensures w.indentLevel == old(w.indentLevel) + 1 && w.currentClassNames == old(w.currentClassNames) + [className]
    ensures w.out == old(w.out) + PendingImports(old(w.importsFlushed), w.importedClassNames) +
                     PlainClassHeader(old(w.indentLevel), className, enumStyle, Public)
  {
    w.WriteImport(ObjectsClass);
    w.WriteClassStart(className, enumStyle, Public);
  }

  /** The part of the declaration between its header and its closing brace. */
  method WriteBody(w: JavaWriter, contextType: string, className: ClassName, style: Style, es: seq<Json>)
    returns (outcome: Outcome, assertionHeld: bool)
    modifies w`out, w`indentLevel
    ensures w.indentLevel == old(w.indentLevel)
    ensures var k := FirstNonText(es);
            outcome == (if k == |es| then Completed else Failed(CodeGenerationException(contextType, NonTextualEnumValue(es[k])))) &&
            assertionHeld == (k < |es| || style == ClassStyle || |es| > 0) &&
            w.out == old(w.out) + ValueCode(style, className.rawClassName, w.indentLevel, TextsOf(es[..k])) +
                     (if k == |es| then SupportCode(w.importedClassNames, w.packageName, w.indentLevel, className, style, style == EnumStyle && k > 0) else "")
  {
    var enumGenerator := new EnumEmitter(className, style);
    var k := enumGenerator.GenerateEnumValues(es, w);
    outcome, assertionHeld := Completed, true;
    if k < |es| {
      outcome := Failed(CodeGenerationException(contextType, NonTextualEnumValue(es[k])));
    } else {
      assertionHeld := enumGenerator.GenerateAdditionalCode(w);
    }
  }
}
