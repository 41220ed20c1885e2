/** The indentation- and import-aware source writer. Everything it writes
    goes to an append-only sink, modelled as the string `out`. */
module JavaWriting {
  import opened Text
  import opened ClassNames
  import opened Imports

  /** The visibility keyword of a declaration (`Visibility.getValue()`). */
  datatype Visibility = Public | Private | OtherVisibility(keyword: string)
  {
    function Value(): string
    {
      match this
      case Public => "public"
      case Private => "private"
      case OtherVisibility(k) => k
    }
  }

  /** The kind of a class-like declaration (`Kind.getValue()`); it is also
      the value of the enum-style feature. */
  datatype Kind = Class | Enum | OtherKind(keyword: string)
  {
    function Value(): string
    {
      match this
      case Class => "class"
      case Enum => "enum"
      case OtherKind(k) => k
    }
  }

  /** One formal parameter: a consecutive (type, name) pair of the
      `typesAndValues` argument list. Pairing them makes the list even-length
      by construction. */
  datatype Param = Param(typeName: ClassName, name: string)

  /** The unit of indentation. */
  const Indent: string := "\t"

  /** The line `import k;`. */
  function ImportLine(k: string): string
  {
    "import " + k + ";\n"
  }

  function ImportLines(ks: seq<string>): string
  {
    if ks == [] then "" else ImportLines(ks[..|ks| - 1]) + ImportLine(ks[|ks| - 1])
  }

  /** What `writeImportForce` writes: an import line for a name with a
      package, nothing for one without. */
  function ImportForceText(c: ClassName): string
  {
    if c.packageName == "" then "" else ImportLine(Qualified(c))
  }

  /** `writeImportForce(ClassName.parse(k))` for each key, in order. */
  function ForcedImports(ks: seq<string>): string
  {
    if ks == [] then "" else ForcedImports(ks[..|ks| - 1]) + ImportForceText(Parse(ks[|ks| - 1]))
  }

  /** What a flush writes for a non-empty table: a blank line, then each key
      in ascending order, parsed and force-imported. */
  function ImportBlock(t: ImportTable): string
  {
    "\n" + ForcedImports(SortedStrings(t.Keys))
  }

  /** What `flushImports` writes: nothing once flushed or while the table is
      empty, the import block otherwise. */
  function PendingImports(flushed: bool, t: ImportTable): string
  {
    if flushed || |t| == 0 then "" else ImportBlock(t)
  }

  function PackageLine(packageName: string): string
  {
    if packageName == "" then "" else "package " + packageName + ";\n"
  }

  /** Each line indented and terminated, in order. */
  function CodeLines(level: int, lines: seq<string>): string
  {
    if lines == [] then "" else CodeLines(level, lines[..|lines| - 1]) + Tabs(level) + lines[|lines| - 1] + "\n"
  }

  /** Names written through `writeClassName`, separated by ", ". */
  function NameList(t: ImportTable, activePackage: string, cs: seq<ClassName>): string
  {
    Join(", ", ShortNames(t, activePackage, cs))
  }

  /** ` extends A, B` or ` implements A, B`; nothing for an empty list. */
  function SupertypeClause(keyword: string, t: ImportTable, activePackage: string, cs: seq<ClassName>): string
  {
    if cs == [] then "" else " " + keyword + " " + NameList(t, activePackage, cs)
  }

  function ClassHeader(t: ImportTable, activePackage: string, level: int, c: ClassName,
                       extendedClasses: seq<ClassName>, implementedInterfaces: seq<ClassName>,
                       kind: Kind, visibility: Visibility): string
  {
    "\n" + Tabs(level) + visibility.Value() + " " + kind.Value() + " " + c.rawClassName +
    SupertypeClause("extends", t, activePackage, extendedClasses) +
    SupertypeClause("implements", t, activePackage, implementedInterfaces) + " {\n"
  }

  function ClosingBrace(level: int): string
  {
    Tabs(level) + "}\n"
  }

  function FieldLine(t: ImportTable, activePackage: string, level: int, visibility: Visibility,
                     c: ClassName, fieldName: string): string
  {
    Tabs(level) + visibility.Value() + " " + ShortName(t, activePackage, c) + " " + fieldName + ";\n"
  }

  /** `Type name` for each parameter. */
  function Formals(t: ImportTable, activePackage: string, ps: seq<Param>): (r: seq<string>)
    ensures |r| == |ps|
    ensures forall i :: 0 <= i < |ps| ==> r[i] == ShortName(t, activePackage, ps[i].typeName) + " " + ps[i].name
  {
    if ps == [] then []
    else Formals(t, activePackage, ps[..|ps| - 1]) + [ShortName(t, activePackage, ps[|ps| - 1].typeName) + " " + ps[|ps| - 1].name]
  }

  function MethodHeader(t: ImportTable, activePackage: string, level: int, visibility: Visibility,
                        returnType: ClassName, methodName: string, params: seq<Param>): string
  {
    "\n" + Tabs(level) + visibility.Value() + " " + ShortName(t, activePackage, returnType) + " " +
    methodName + "(" + Join(", ", Formals(t, activePackage, params)) + ") {\n"
  }

  /** Assumed text of `writeConstructorBodyStart`, which JavaWriter.java
      does not define: like a method header, with the raw class name in
      place of return type and name. */
  function ConstructorHeader(t: ImportTable, activePackage: string, level: int, visibility: Visibility,
                             c: ClassName, params: seq<Param>): string
  {
    "\n" + Tabs(level) + visibility.Value() + " " + c.rawClassName + "(" + Join(", ", Formals(t, activePackage, params)) + ") {\n"
  }

  /** Assumed text of `writeAnnotation`, which JavaWriter.java does not define. */
  function AnnotationLine(t: ImportTable, activePackage: string, level: int, c: ClassName): string
  {
    Tabs(level) + "@" + ShortName(t, activePackage, c) + "\n"
  }

  /** The header `writeClassStart` writes when there is nothing to extend
      or implement. */
  function PlainClassHeader(level: int, c: ClassName, kind: Kind, visibility: Visibility): string
  {
    "\n" + Tabs(level) + visibility.Value() + " " + kind.Value() + " " + c.rawClassName + " {\n"
  }

  /** Without supertypes the header has neither an `extends` nor an
      `implements` clause, whatever the import table. */
  lemma PlainClassHeaderAgrees(t: ImportTable, activePackage: string, level: int, c: ClassName, kind: Kind, visibility: Visibility)
    ensures ClassHeader(t, activePackage, level, c, [], [], kind, visibility) == PlainClassHeader(level, c, kind, visibility)
  {
  }

  function StaticImportLine(c: ClassName, methodName: string): string
  {
    "import static " + (if c.packageName == "" then "" else c.packageName + ".") + c.rawClassName + "." + methodName + ";\n"
  }

  /** Re-parsing a key of a valid table and force-importing it writes the
      import line of that very key. */
  lemma KeyImportLine(t: ImportTable, k: string)
    requires KeysQualified(t) && k in t
    ensures ImportForceText(Parse(k)) == ImportLine(k)
  {
    var pre := k[..|k| - |t[k]| - 1];
    LastDotAfterPackage(pre, t[k]);
  }

  /** The import block of a valid, unflushed, non-empty table, as lines. */
  lemma PendingImportLines(start: string, t: ImportTable)
    requires ValidTable(t) && |t| != 0
    ensures start + PendingImports(false, t) == start + "\n" + ImportLines(SortedStrings(t.Keys))
  {
    ImportBlockLists(t);
    Assoc(start, "\n", ImportLines(SortedStrings(t.Keys)));
  }

  lemma {:induction false} ForcedImportsOfKeys(t: ImportTable, ks: seq<string>)
    requires KeysQualified(t)
    requires forall i :: 0 <= i < |ks| ==> ks[i] in t
    ensures ForcedImports(ks) == ImportLines(ks)
  {
    if ks != [] {
      ForcedImportsOfKeys(t, ks[..|ks| - 1]);
      KeyImportLine(t, ks[|ks| - 1]);
    }
  }

  /** A flush of a valid table writes a blank line and then `import k;` for
      every key k, each key once, in ascending order. */
  lemma ImportBlockLists(t: ImportTable)
    requires KeysQualified(t)
    ensures ImportBlock(t) == "\n" + ImportLines(SortedStrings(t.Keys))
    ensures StrictlySorted(SortedStrings(t.Keys))
    ensures forall k :: k in SortedStrings(t.Keys) <==> k in t
    ensures |SortedStrings(t.Keys)| == |t|
  {
    SortedStringsListing(t.Keys);
    ForcedImportsOfKeys(t, SortedStrings(t.Keys));
  }

  lemma ForcedImportsSnoc(ks: seq<string>, i: nat)
    requires i < |ks|
    ensures ForcedImports(ks[..i + 1]) == ForcedImports(ks[..i]) + ImportForceText(Parse(ks[i]))
  {
    assert ks[..i + 1][..i] == ks[..i];
  }

  lemma CodeLinesStep(level: int, lines: seq<string>, i: nat)
    requires i < |lines|
    ensures CodeLines(level, lines[..i + 1]) == CodeLines(level, lines[..i]) + Tabs(level) + lines[i] + "\n"
  {
    assert lines[..i + 1][..i] == lines[..i];
  }

  lemma CodeLinesOne(level: int, line: string)
    ensures CodeLines(level, [line]) == Tabs(level) + line + "\n"
  {
    assert [line][..0] == [];
  }

  /** Lines without a line break of their own give one line each. */
  lemma {:induction false} CodeLinesNewlines(level: int, lines: seq<string>)
    requires forall j :: 0 <= j < |lines| ==> '\n' !in lines[j]
    ensures Occurrences('\n', CodeLines(level, lines)) == |lines|
  {
    if lines != [] {
      var init := lines[..|lines| - 1];
      var last := lines[|lines| - 1];
      CodeLinesNewlines(level, init);
      TabsOnly(level);
      OccurrencesNone('\n', Tabs(level) + last);
      OccurrencesAppend('\n', CodeLines(level, init), Tabs(level) + last);
      OccurrencesAppend('\n', CodeLines(level, init) + (Tabs(level) + last), "\n");
      Assoc(CodeLines(level, init), Tabs(level), last);
    }
  }

  lemma FormalsStep(t: ImportTable, activePackage: string, ps: seq<Param>, i: nat)
    requires i < |ps|
    ensures Join(", ", Formals(t, activePackage, ps[..i + 1])) ==
            Join(", ", Formals(t, activePackage, ps[..i])) + (if i == 0 then "" else ", ") +
            (ShortName(t, activePackage, ps[i].typeName) + " " + ps[i].name)
  {
    var before := Formals(t, activePackage, ps[..i]);
    var formal := ShortName(t, activePackage, ps[i].typeName) + " " + ps[i].name;
    assert Formals(t, activePackage, ps[..i + 1]) == before + [formal] by {
      assert ps[..i + 1][..i] == ps[..i];
    }
    if i > 0 {
      JoinSnoc(", ", before, formal);
    }
  }

  /** One more name extends the list by a separator (after the first) and
      that name's short form. */
  lemma NameListSnoc(t: ImportTable, activePackage: string, cs: seq<ClassName>, i: nat)
    requires i < |cs|
    ensures NameList(t, activePackage, cs[..i + 1]) ==
            NameList(t, activePackage, cs[..i]) + (if i == 0 then "" else ", ") + ShortName(t, activePackage, cs[i])
  {
    var before := ShortNames(t, activePackage, cs[..i]);
    assert ShortNames(t, activePackage, cs[..i + 1]) == before + [ShortName(t, activePackage, cs[i])] by {
      assert cs[..i + 1][..i] == cs[..i];
    }
    if i > 0 {
      JoinSnoc(", ", before, ShortName(t, activePackage, cs[i]));
    }
  }


  class JavaWriter {
    /** Everything written to the sink so far. */
    var out: string
    var indentLevel: int
    /** The package of the unit being written, "" until `writePackage`. */
    var packageName: string
    /** The open classes, innermost last. */
    var currentClassNames: seq<ClassName>
    var importedClassNames: ImportTable
    var importsFlushed: bool

    /** The import table keeps its invariants. */
    ghost predicate Valid()
      reads this`importedClassNames
    {
      ValidTable(importedClassNames)
    }

    constructor ()
      ensures out == "" && indentLevel == 0 && packageName == ""
      ensures currentClassNames == [] && importedClassNames == map[] && !importsFlushed
      ensures Valid()
    {
      out := "";
      indentLevel := 0;
      packageName := "";
      currentClassNames := [];
      importedClassNames := map[];
      importsFlushed := false;
    }

    method PushIndentLevel()
      modifies this`indentLevel
      ensures indentLevel == old(indentLevel) + 1
    {
      indentLevel := indentLevel + 1;
    }

    method PopIndentLevel()
      modifies this`indentLevel
      ensures indentLevel == old(indentLevel) - 1
    {
      indentLevel := indentLevel - 1;
    }

    /** One indent unit per level; none at a level of zero or below. */
    method WriteIndent()
      modifies this`out
      ensures out == old(out) + Tabs(indentLevel)
    {
      var i := 0;
      while i < indentLevel
        invariant 0 <= i && (i <= indentLevel || i == 0)
        invariant out == old(out) + Tabs(i)
      {
        out := out + Indent;
        i := i + 1;
      }
    }

    /** The package becomes the active one; the declaration is written only
      for a named package. */
    method WritePackage(fqcn: ClassName)
      modifies this`out, this`packageName
      ensures packageName == fqcn.packageName
      ensures out == old(out) + PackageLine(fqcn.packageName)
    {
      var p := fqcn.packageName;
      if p != "" {
        out := out + "package " + p + ";\n";
      }
      packageName := p;
    }

    /** Offers `fqcn` and, unless it needs no import, each of its type
      arguments to the import table. Nothing is written. */
    method WriteImport(fqcn: ClassName)
      modifies this`importedClassNames
      ensures importedClassNames == Offer(old(importedClassNames), packageName, fqcn)
      ensures old(Valid()) ==> Valid()
      decreases fqcn
    {
      ghost var t0 := importedClassNames;
      if ValidTable(t0) {
        OfferValid(t0, packageName, fqcn);
      }
      var p := fqcn.packageName;
      if p == "" {
        return;
      }
      if packageName == p || JavaLang == p {
        return;
      }
      var raw := fqcn.rawClassName;
      if raw !in importedClassNames.Values {
        var importClassName := p + "." + raw;
        importedClassNames := importedClassNames[importClassName := raw];
      }
      match fqcn.typeArguments {
        case NoTypeArguments =>
        case TypeArguments(xs) =>
          ghost var t1 := importedClassNames;
          for i := 0 to |xs|
            invariant importedClassNames == OfferAll(t1, packageName, xs[..i])
          {
            WriteImport(xs[i]);
            assert xs[..i + 1][..i] == xs[..i];
          }
          assert xs[..|xs|] == xs;
      }
    }

    /** Writes the collected imports once, before the first declaration:
      each key, in ascending order, parsed back into a name and
      force-imported. */
    method FlushImports()
      modifies this`out, this`importsFlushed
      ensures out == old(out) + PendingImports(old(importsFlushed), importedClassNames)
      ensures importsFlushed == (old(importsFlushed) || |importedClassNames| != 0)
      ensures Valid() && !old(importsFlushed) && |importedClassNames| != 0 ==>
                out == old(out) + "\n" + ImportLines(SortedStrings(importedClassNames.Keys))
    {
      if importsFlushed || |importedClassNames| == 0 {
        return;
      }
      var importClassNames := SortedStrings(importedClassNames.Keys);
      WriteEmptyLine();
      for i := 0 to |importClassNames|
        invariant out == old(out) + "\n" + ForcedImports(importClassNames[..i])
      {
        WriteImportForce(Parse(importClassNames[i]));
        ForcedImportsSnoc(importClassNames, i);
        Assoc(old(out) + "\n", ForcedImports(importClassNames[..i]), ImportForceText(Parse(importClassNames[i])));
      }
      assert importClassNames[..|importClassNames|] == importClassNames;
      Assoc(old(out), "\n", ForcedImports(importClassNames));
      importsFlushed := true;
      if Valid() {
        PendingImportLines(old(out), importedClassNames);
      }
    }

    /** `getAvailableShortName`: the shortest form of `fqcn` that is valid
      with the current package and imports. */
    function AvailableShortName(fqcn: ClassName): (r: string)
      reads this
      ensures Arguments(fqcn) == [] && NeedsNoImport(fqcn.packageName, packageName) ==> r == fqcn.rawClassName
      ensures Arguments(fqcn) == [] && !NeedsNoImport(fqcn.packageName, packageName) && Qualified(fqcn) in importedClassNames ==>
                r == importedClassNames[Qualified(fqcn)]
      ensures Arguments(fqcn) == [] && !NeedsNoImport(fqcn.packageName, packageName) && Qualified(fqcn) !in importedClassNames ==>
                r == Qualified(fqcn)
    {
      ShortNameParts(importedClassNames, packageName, fqcn);
      ShortName(importedClassNames, packageName, fqcn)
    }

    /** Writes an import line for a name with a package, whether or not it
      was collected. */
    method WriteImportForce(fqcn: ClassName)
      modifies this`out
      ensures out == old(out) + ImportForceText(fqcn)
    {
      if fqcn.packageName != "" {
        out := out + "import " + fqcn.packageName + "." + fqcn.rawClassName + ";\n";
      }
    }

    /** `writeImport(ClassName, String)`: a static import, written at once. */
    method WriteStaticImport(fqcn: ClassName, methodName: string)
      modifies this`out
      ensures out == old(out) + StaticImportLine(fqcn, methodName)
    {
      out := out + "import static ";
      if fqcn.packageName != "" {
        out := out + fqcn.packageName + ".";
      }
      out := out + fqcn.rawClassName + "." + methodName + ";\n";
    }

    method WriteClassStart(fqcn: ClassName, kind: Kind, visibility: Visibility)
      modifies this`out, this`importsFlushed, this`indentLevel, this`currentClassNames
      ensures out == old(out) + PendingImports(old(importsFlushed), importedClassNames) +
                     PlainClassHeader(old(indentLevel), fqcn, kind, visibility)
      ensures importsFlushed == (old(importsFlushed) || |importedClassNames| != 0)
      ensures indentLevel == old(indentLevel) + 1
      ensures currentClassNames == old(currentClassNames) + [fqcn]
    {
      WriteClassStartWithSupertypes(fqcn, [], [], kind, visibility);
      PlainClassHeaderAgrees(importedClassNames, packageName, old(indentLevel), fqcn, kind, visibility);
    }

    /** Flushes the imports, writes the header of a class-like declaration
      and opens it: one level deeper, the class on top of the stack. */
    method WriteClassStartWithSupertypes(fqcn: ClassName, extendedClasses: seq<ClassName>,
                                          implementedInterfaces: seq<ClassName>, kind: Kind, visibility: Visibility)
      modifies this`out, this`importsFlushed, this`indentLevel, this`currentClassNames
      ensures out == old(out) + PendingImports(old(importsFlushed), importedClassNames) +
                     ClassHeader(importedClassNames, packageName, old(indentLevel), fqcn,
                                 extendedClasses, implementedInterfaces, kind, visibility)
      ensures importsFlushed == (old(importsFlushed) || |importedClassNames| != 0)
      ensures indentLevel == old(indentLevel) + 1
      ensures currentClassNames == old(currentClassNames) + [fqcn]
    {
      FlushImports();
      WriteClassHeader(fqcn, extendedClasses, implementedInterfaces, kind, visibility);
      Assoc(old(out), PendingImports(old(importsFlushed), importedClassNames),
            ClassHeader(importedClassNames, packageName, old(indentLevel), fqcn, extendedClasses, implementedInterfaces, kind, visibility));
      PushIndentLevel();
      currentClassNames := currentClassNames + [fqcn];
    }

    /** The declaration line `writeClassStart` writes after flushing the
      imports, preceded by an empty line. */
    method WriteClassHeader(fqcn: ClassName, extendedClasses: seq<ClassName>,
                            implementedInterfaces: seq<ClassName>, kind: Kind, visibility: Visibility)
      modifies this`out
      ensures out == old(out) + ClassHeader(importedClassNames, packageName, indentLevel, fqcn,
                                            extendedClasses, implementedInterfaces, kind, visibility)
    {
      // The header is appended piece by piece; `acc` is what it has grown to.
      WriteEmptyLine();
      WriteIndent();
      Assoc(old(out), "\n", Tabs(indentLevel));
      ghost var acc := "\n" + Tabs(indentLevel);
      out := out + visibility.Value();
      Assoc(old(out), acc, visibility.Value());
      acc := acc + visibility.Value();
      out := out + " ";
      Assoc(old(out), acc, " ");
      acc := acc + " ";
      out := out + kind.Value();
      Assoc(old(out), acc, kind.Value());
      acc := acc + kind.Value();
      out := out + " ";
      Assoc(old(out), acc, " ");
      acc := acc + " ";
      out := out + fqcn.rawClassName;
      Assoc(old(out), acc, fqcn.rawClassName);
      acc := acc + fqcn.rawClassName;
      WriteSupertypes("extends", extendedClasses);
      ghost var extendsClause := SupertypeClause("extends", importedClassNames, packageName, extendedClasses);
      Assoc(old(out), acc, extendsClause);
      acc := acc + extendsClause;
      WriteSupertypes("implements", implementedInterfaces);
      ghost var implementsClause := SupertypeClause("implements", importedClassNames, packageName, implementedInterfaces);
      Assoc(old(out), acc, implementsClause);
      acc := acc + implementsClause;
      out := out + " {\n";
      Assoc(old(out), acc, " {\n");
    }

    /** The block `writeClassStart` writes for the extended classes and again
      for the implemented interfaces: nothing for an empty list, otherwise
      the keyword and the names. */
    method WriteSupertypes(keyword: string, cs: seq<ClassName>)
      modifies this`out
      ensures out == old(out) + SupertypeClause(keyword, importedClassNames, packageName, cs)
    {
      if cs != [] {
        out := out + " ";
        out := out + keyword;
        out := out + " ";
        WriteClassNames(cs);
        Assoc(old(out), " ", keyword);
        Assoc(old(out), " " + keyword, " ");
        Assoc(old(out), " " + keyword + " ", NameList(importedClassNames, packageName, cs));
      }
    }

    /** Closes the innermost class: one level up, the class popped. With no
      class open the brace is still written and the level still lowered;
      only the pop fails, reported as `emptyStack` (`EmptyStackException`). */
    method WriteClassEnd() returns (emptyStack: bool)
      modifies this`out, this`indentLevel, this`currentClassNames
      ensures indentLevel == old(indentLevel) - 1
      ensures out == old(out) + ClosingBrace(indentLevel)
      ensures emptyStack <==> old(currentClassNames) == []
      ensures !emptyStack ==> currentClassNames == old(currentClassNames)[..|old(currentClassNames)| - 1]
      ensures emptyStack ==> currentClassNames == []
    {
      PopIndentLevel();
      WriteIndent();
      out := out + "}\n";
      emptyStack := currentClassNames == [];
      if !emptyStack {
        currentClassNames := currentClassNames[..|currentClassNames| - 1];
      }
    }

    method WriteField(visibility: Visibility, className: ClassName, fieldName: string)
      modifies this`out
      ensures out == old(out) + FieldLine(importedClassNames, packageName, indentLevel, visibility, className, fieldName)
    {
      WriteIndent();
      ghost var acc := Tabs(indentLevel);
      out := out + visibility.Value();
      Assoc(old(out), acc, visibility.Value());
      acc := acc + visibility.Value();
      out := out + " ";
      Assoc(old(out), acc, " ");
      acc := acc + " ";
      WriteClassName(className);
      Assoc(old(out), acc, AvailableShortName(className));
      acc := acc + AvailableShortName(className);
      out := out + " ";
      Assoc(old(out), acc, " ");
      acc := acc + " ";
      out := out + fieldName;
      Assoc(old(out), acc, fieldName);
      acc := acc + fieldName;
      out := out + ";\n";
      Assoc(old(out), acc, ";\n");
    }

    /** Writes a method header and opens its body one level deeper. */
    method WriteMethodBodyStart(visibility: Visibility, className: ClassName, methodName: string, typesAndValues: seq<Param>)
      modifies this`out, this`indentLevel
      ensures out == old(out) + MethodHeader(importedClassNames, packageName, old(indentLevel), visibility,
                                             className, methodName, typesAndValues)
      ensures indentLevel == old(indentLevel) + 1
    {
      WriteEmptyLine();
      WriteIndent();
      Assoc(old(out), "\n", Tabs(indentLevel));
      ghost var acc := "\n" + Tabs(indentLevel);
      out := out + visibility.Value();
      Assoc(old(out), acc, visibility.Value());
      acc := acc + visibility.Value();
      out := out + " ";
      Assoc(old(out), acc, " ");
      acc := acc + " ";
      WriteClassName(className);
      Assoc(old(out), acc, AvailableShortName(className));
      acc := acc + AvailableShortName(className);
      out := out + " ";
      Assoc(old(out), acc, " ");
      acc := acc + " ";
      out := out + methodName;
      Assoc(old(out), acc, methodName);
      acc := acc + methodName;
      out := out + "(";
      Assoc(old(out), acc, "(");
      acc := acc + "(";
      WriteFormalArguments(typesAndValues);
      ghost var formals := Join(", ", Formals(importedClassNames, packageName, typesAndValues));
      Assoc(old(out), acc, formals);
      acc := acc + formals;
      out := out + ") {\n";
      Assoc(old(out), acc, ") {\n");
      PushIndentLevel();
    }

    /** Stand-in for `writeConstructorBodyStart`, which JavaWriter.java does
      not define: a constructor header, body one level deeper. */
    method WriteConstructorBodyStart(visibility: Visibility, className: ClassName, typesAndValues: seq<Param>)
      modifies this`out, this`indentLevel
      ensures out == old(out) + ConstructorHeader(importedClassNames, packageName, old(indentLevel), visibility,
                                                  className, typesAndValues)
      ensures indentLevel == old(indentLevel) + 1
    {
      WriteEmptyLine();
      WriteIndent();
      Assoc(old(out), "\n", Tabs(indentLevel));
      ghost var acc := "\n" + Tabs(indentLevel);
      out := out + visibility.Value();
      Assoc(old(out), acc, visibility.Value());
      acc := acc + visibility.Value();
      out := out + " ";
      Assoc(old(out), acc, " ");
      acc := acc + " ";
      out := out + className.rawClassName;
      Assoc(old(out), acc, className.rawClassName);
      acc := acc + className.rawClassName;
      out := out + "(";
      Assoc(old(out), acc, "(");
      acc := acc + "(";
      WriteFormalArguments(typesAndValues);
      ghost var formals := Join(", ", Formals(importedClassNames, packageName, typesAndValues));
      Assoc(old(out), acc, formals);
      acc := acc + formals;
      out := out + ") {\n";
      Assoc(old(out), acc, ") {\n");
      PushIndentLevel();
    }

    /** Each line on its own line, indented. */
    method WriteCode(lines: seq<string>)
      modifies this`out
      ensures out == old(out) + CodeLines(indentLevel, lines)
    {
      for i := 0 to |lines|
        invariant out == old(out) + CodeLines(indentLevel, lines[..i])
      {
        WriteIndent();
        out := out + lines[i];
        out := out + "\n";
        CodeLinesStep(indentLevel, lines, i);
        ghost var done := CodeLines(indentLevel, lines[..i]);
        Assoc(old(out), done, Tabs(indentLevel));
        Assoc(old(out), done + Tabs(indentLevel), lines[i]);
        Assoc(old(out), done + Tabs(indentLevel) + lines[i], "\n");
      }
      assert lines[..|lines|] == lines;
    }

    /** Closes a method or constructor body. */
    method WriteMethodBodyEnd()
      modifies this`out, this`indentLevel
      ensures indentLevel == old(indentLevel) - 1
      ensures out == old(out) + ClosingBrace(indentLevel)
    {
      PopIndentLevel();
      WriteIndent();
      out := out + "}\n";
    }

    /** `writeMethodBodyStartFormalArgument` for each pair, separated by ", ". */
    method WriteFormalArguments(params: seq<Param>)
      modifies this`out
      ensures out == old(out) + Join(", ", Formals(importedClassNames, packageName, params))
    {
      for i := 0 to |params|
        invariant out == old(out) + Join(", ", Formals(importedClassNames, packageName, params[..i]))
      {
        ghost var done := Join(", ", Formals(importedClassNames, packageName, params[..i]));
        ghost var sep := if i == 0 then "" else ", ";
        if i > 0 {
          out := out + ", ";
        }
        assert out == old(out) + done + sep;
        WriteFormalArgument(params[i]);
        ghost var formal := AvailableShortName(params[i].typeName) + " " + params[i].name;
        FormalsStep(importedClassNames, packageName, params, i);
        Assoc(old(out), done, sep);
        Assoc(old(out), done + sep, formal);
      }
      assert params[..|params|] == params;
    }

    /** `writeMethodBodyStartFormalArgument`: type, then name. */
    method WriteFormalArgument(param: Param)
      modifies this`out
      ensures out == old(out) + (AvailableShortName(param.typeName) + " " + param.name)
    {
      WriteClassName(param.typeName);
      out := out + " ";
      out := out + param.name;
      Assoc(old(out), AvailableShortName(param.typeName), " ");
      Assoc(old(out), AvailableShortName(param.typeName) + " ", param.name);
    }

    /** Names separated by ", ", each through `writeClassName`. */
    method WriteClassNames(cs: seq<ClassName>)
      modifies this`out
      ensures out == old(out) + NameList(importedClassNames, packageName, cs)
    {
      for i := 0 to |cs|
        invariant out == old(out) + NameList(importedClassNames, packageName, cs[..i])
      {
        ghost var done := NameList(importedClassNames, packageName, cs[..i]);
        ghost var sep := if i == 0 then "" else ", ";
        if i > 0 {
          out := out + ", ";
        }
        assert out == old(out) + done + sep;
        WriteClassName(cs[i]);
        NameListSnoc(importedClassNames, packageName, cs, i);
        Assoc(old(out), done, sep);
        Assoc(old(out), done + sep, AvailableShortName(cs[i]));
      }
      assert cs[..|cs|] == cs;
    }

    /** A class name in the shortest form that is valid here. */
    method WriteClassName(fqcn: ClassName)
      modifies this`out
      ensures out == old(out) + AvailableShortName(fqcn)
    {
      var className := AvailableShortName(fqcn);
      out := out + className;
    }

    method WriteEmptyLine()
      modifies this`out
      ensures out == old(out) + "\n"
    {
      out := out + "\n";
    }

    /** Stand-in for `write(String)`: the text as it is. */
    method Write(s: string)
      modifies this`out
      ensures out == old(out) + s
    {
      out := out + s;
    }

    /** Stand-in for `writeAnnotation`, which JavaWriter.java does not define. */
    method WriteAnnotation(c: ClassName)
      modifies this`out
      ensures out == old(out) + AnnotationLine(importedClassNames, packageName, indentLevel, c)
    {
      WriteIndent();
      out := out + "@";
      WriteClassName(c);
      out := out + "\n";
      Assoc(old(out), Tabs(indentLevel), "@");
      Assoc(old(out), Tabs(indentLevel) + "@", AvailableShortName(c));
      Assoc(old(out), Tabs(indentLevel) + "@" + AvailableShortName(c), "\n");
    }
  }
}
