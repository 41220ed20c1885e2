# json-schema-bean-generator: writer, string strategy, mapping and registry

This project models the core of a generator that turns JSON-schema types into
Java source, in Dafny.

- **JavaWriter** writes Java source to a sink. It indents by tabs. It keeps a
  stack of open classes. It collects imports, one short name per raw class
  name, and writes them sorted before the first class header. It shortens
  every class name it writes as far as the package and the imports allow.
- **PojoStringGenerator** is the strategy for JSON-schema strings.
  - A schema without a non-null `enum` is a plain `java.lang.String`.
  - A schema with an `enum` array of texts becomes a declaration with one
    constant per text.
  - The CLASS style writes public static constants plus `hashCode` and
    `equals`. The ENUM style writes a Java enum.
  - The generator fails when `enum` is not an array, when the enum style is
    neither CLASS nor ENUM, or at the first value that is not a text. In
    every case the class that was opened is closed.
- **Mapping** is the mutable record that describes how one schema type maps
  to Java. Its one piece of logic: the name of the class to generate falls
  back to the referenced class name.
- **AbstractGenerator** holds the state shared by all generators: typed
  features, the URI-to-mapping table, and the default package names.

The files:

- `wrappers.dfy`: `Option`.
- `class_name.dfy`: `ClassName`, its canonical text and `ClassName.parse`.
- `text.dfy`: the string helpers the writer needs. `Tabs`, joins, ASCII
  upper-casing, character counts, and `compareTo` order with the sorted
  listing of a set of strings.
- `import_table.dfy`: the import table as a value. It covers how
  `writeImport` grows the table and how `getAvailableShortName` reads it.
- `java_writer.dfy`: the text each writer call produces, and the
  `JavaWriter` class whose methods append that text to `out`.
- `pojo_string.dfy`: `generate`, the two enum emitters as one class
  `EnumEmitter` with a `Style`, and `generateType`.
- `mapping.dfy`: `Mapping` and the `Uri` it refers to.
- `generator.dfy`: the `Generator` registry.

The writer's output is a `string` field `out` that its methods extend. Each
method's postcondition says exactly what it appends, in terms of a text
function. The properties are proved about those functions:

- imports are sorted, unique and complete;
- importing is idempotent;
- for two classes with one raw name, the first claimant wins;
- a name that cannot be shortened is written fully qualified;
- each constant of the CLASS style is exactly one line;
- the constants of the ENUM style have exactly `n - 1` separators;
- the emitters' step-by-step output equals the whole-list listing;
- `generateType` writes exactly the declaration and always closes the class.

## Model

| member | source | states |
|---|---|---|
| ClassNames.Parse | src/test/java/com/collaborne/jsonschema/generator/java/ClassNameTest.java:45-59 | the parsed name has no type arguments and a dot-free raw name; without a dot the package is empty and the raw name is the whole text; otherwise package "." raw gives back the text |
| ClassNames.ParseQualified | src/main/java/com/collaborne/jsonschema/generator/java/JavaWriter.java:110-115 | parsing the key `package.raw` of an imported name gives back that very name, so `flushImports` re-parses what `writeImport` recorded |
| ClassNames.QualifiedInjective | src/main/java/com/collaborne/jsonschema/generator/java/JavaWriter.java:89-93 | two qualified keys with dot-free raw names are equal only for equal package and raw name |
| ClassNames.LastDotSplits | src/test/java/com/collaborne/jsonschema/generator/java/ClassNameTest.java:45-51 | the text after the last dot has no dot, and the last dot really is a dot |
| ClassNames.Format | src/main/java/com/collaborne/jsonschema/generator/model/Mapping.java:116 | the text a name prints as: the raw name alone in the default package, `package.raw` otherwise, followed by `<...>` only when there are type arguments |
| ClassNames.FormatParses | src/test/java/com/collaborne/jsonschema/generator/java/ClassNameTest.java:45-59 | the printed text of a name without type arguments parses back to that very name, with or without a package |
| Text.TabsOnly | src/main/java/com/collaborne/jsonschema/generator/java/JavaWriter.java:58-62 | the indent is made of tab characters only, one per level (none for a level of zero or less) |
| Text.UpperCasing | src/main/java/com/collaborne/jsonschema/generator/pojo/PojoStringGenerator.java:83 | upper-casing leaves no ASCII lower-case letter, keeps every other character, keeps the length and is idempotent |
| Text.UpperAvoids | src/main/java/com/collaborne/jsonschema/generator/pojo/PojoStringGenerator.java:120 | upper-casing introduces no character that is not an upper-case letter, so a comma or newline appears in the constant name only where it appears in the value |
| Text.BelowTotal | src/main/java/com/collaborne/jsonschema/generator/java/JavaWriter.java:110 | `compareTo` order relates any two distinct strings one way or the other |
| Text.BelowTransitive | src/main/java/com/collaborne/jsonschema/generator/java/JavaWriter.java:110 | `compareTo` order is transitive |
| Text.BelowAsymmetric | src/main/java/com/collaborne/jsonschema/generator/java/JavaWriter.java:110 | `compareTo` order never holds both ways |
| Text.LeastExists | src/main/java/com/collaborne/jsonschema/generator/java/JavaWriter.java:110 | (helper) every non-empty set of strings has a least element |
| Text.SortedStringsListing | src/main/java/com/collaborne/jsonschema/generator/java/JavaWriter.java:110 | the sorted listing of a key set is strictly increasing and holds exactly the keys of the set |
| Text.SortedListingsEqual | src/main/java/com/collaborne/jsonschema/generator/java/JavaWriter.java:110 | two strictly sorted lists with the same elements are equal |
| Text.SortedStringsUnique | src/main/java/com/collaborne/jsonschema/generator/java/JavaWriter.java:110 | any strictly sorted list of exactly the keys is the listing `flushImports` writes, so the sort is determined by the keys alone |
| Text.JoinOccurrences | src/main/java/com/collaborne/jsonschema/generator/pojo/PojoStringGenerator.java:116-118 | joining n separator-free parts with a separator that holds the character once holds it exactly n - 1 times |
| Text.OccurrencesAppend | src/main/java/com/collaborne/jsonschema/generator/java/JavaWriter.java:267-274 | (helper) counts of a character add up over concatenation |
| Imports.Offer | src/main/java/com/collaborne/jsonschema/generator/java/JavaWriter.java:78-102 | `writeImport` never removes an import |
| Imports.Claim | src/main/java/com/collaborne/jsonschema/generator/java/JavaWriter.java:89-94 | the recording step: at most the name's own key is added, no key is lost, afterwards some key holds the raw name, and a raw name already held leaves the table as it was |
| Imports.OfferAll | src/main/java/com/collaborne/jsonschema/generator/java/JavaWriter.java:96-101 | importing the type arguments one after the other never removes an import |
| Imports.OfferValid | src/main/java/com/collaborne/jsonschema/generator/java/JavaWriter.java:78-102 | after `writeImport` the table still has qualified keys and no raw name claimed twice |
| Imports.OfferAllValid | src/main/java/com/collaborne/jsonschema/generator/java/JavaWriter.java:96-101 | importing the type arguments one after the other keeps the table valid |
| Imports.ClaimValid | src/main/java/com/collaborne/jsonschema/generator/java/JavaWriter.java:89-94 | recording a name only while its raw name is still free keeps raw names unique |
| Imports.OfferExtends | src/main/java/com/collaborne/jsonschema/generator/java/JavaWriter.java:78-102 | `writeImport` keeps every earlier entry with its short name |
| Imports.OfferAllExtends | src/main/java/com/collaborne/jsonschema/generator/java/JavaWriter.java:96-101 | importing a list of type arguments keeps every earlier entry with its short name |
| Imports.SettledUnchanged | src/main/java/com/collaborne/jsonschema/generator/java/JavaWriter.java:79-94 | importing a name that is settled (skipped, recorded, or shadowed by an earlier claimant of its raw name, arguments included) leaves the table unchanged |
| Imports.SettledAllUnchanged | src/main/java/com/collaborne/jsonschema/generator/java/JavaWriter.java:96-101 | importing settled type arguments leaves the table unchanged |
| Imports.SettledStays | src/main/java/com/collaborne/jsonschema/generator/java/JavaWriter.java:89-94 | a settled name stays settled in any table that keeps the earlier entries |
| Imports.OfferSettles | src/main/java/com/collaborne/jsonschema/generator/java/JavaWriter.java:78-102 | after `writeImport(c)`, `c` and all its type arguments are settled |
| Imports.OfferAllSettles | src/main/java/com/collaborne/jsonschema/generator/java/JavaWriter.java:96-101 | after importing a list of names, every one of them is settled |
| Imports.ImportIdempotent | src/main/java/com/collaborne/jsonschema/generator/java/JavaWriter.java:78-102 | importing the same name twice gives the same table as importing it once |
| Imports.BaseNameRule | src/main/java/com/collaborne/jsonschema/generator/java/JavaWriter.java:120-140 | the class part is the raw name exactly when the package is empty, the active package or `java.lang`, or when the qualified name is imported; otherwise it is `package.raw` |
| Imports.ImportedOrShadowed | src/main/java/com/collaborne/jsonschema/generator/java/JavaWriter.java:89-94 | after importing a name that needs an import, either it is recorded under its raw name and written short, or another class holds that raw name and it is written qualified |
| Imports.FirstClaimantWins | src/main/java/com/collaborne/jsonschema/generator/java/JavaWriter.java:90-94 | of two classes with one raw name, the first imported is written by its raw name; the second is not recorded and is written fully qualified |
| Imports.ShortNameUnshortened | src/main/java/com/collaborne/jsonschema/generator/java/JavaWriter.java:119-155 | when neither a name nor any of its type arguments can be shortened, the short name is the canonical fully qualified text |
| Imports.ShortNames | src/main/java/com/collaborne/jsonschema/generator/java/JavaWriter.java:143-153 | each type argument is shortened with the same table and package, in order |
| Imports.ShortNameParts | src/main/java/com/collaborne/jsonschema/generator/java/JavaWriter.java:119-155 | the short name starts with the base name; it is the base name alone exactly when there are no type arguments, and otherwise ends in `>` |
| JavaWriting.Formals | src/main/java/com/collaborne/jsonschema/generator/java/JavaWriter.java:255-262 | one formal per parameter, in order: its shortened type, a space, its name |
| JavaWriting.PlainClassHeaderAgrees | src/main/java/com/collaborne/jsonschema/generator/java/JavaWriter.java:180-182 | the class start without supertypes writes the same header as the general one with two empty lists |
| JavaWriting.KeyImportLine | src/main/java/com/collaborne/jsonschema/generator/java/JavaWriter.java:113-115 | force-importing the parsed key writes `import <key>;` |
| JavaWriting.ForcedImportsOfKeys | src/main/java/com/collaborne/jsonschema/generator/java/JavaWriter.java:113-115 | force-importing each parsed key in turn writes one import line per key |
| JavaWriting.ImportBlockLists | src/main/java/com/collaborne/jsonschema/generator/java/JavaWriter.java:104-117 | the import block is an empty line and then one `import` line per collected key, strictly sorted, each key exactly once, no other key |
| JavaWriting.PendingImportLines | src/main/java/com/collaborne/jsonschema/generator/java/JavaWriter.java:104-117 | what an unflushed, non-empty valid table contributes is an empty line and then the sorted `import` lines |
| JavaWriting.CodeLinesNewlines | src/main/java/com/collaborne/jsonschema/generator/java/JavaWriter.java:267-274 | code lines without newlines come out as exactly one line each |
| JavaWriting.FormalsStep | src/main/java/com/collaborne/jsonschema/generator/java/JavaWriter.java:256-261 | each formal after the first is preceded by ", " |
| JavaWriting.NameListSnoc | src/main/java/com/collaborne/jsonschema/generator/java/JavaWriter.java:202-207 | each supertype after the first is preceded by ", " |
| JavaWriting.JavaWriter.constructor | src/main/java/com/collaborne/jsonschema/generator/java/JavaWriter.java:31-43 | a fresh writer has written nothing, is at level 0 in the default package, has no open class and no import, and has not flushed |
| JavaWriting.JavaWriter.PushIndentLevel | src/main/java/com/collaborne/jsonschema/generator/java/JavaWriter.java:50-52 | the level goes up by one |
| JavaWriting.JavaWriter.PopIndentLevel | src/main/java/com/collaborne/jsonschema/generator/java/JavaWriter.java:54-56 | the level goes down by one, unchecked |
| JavaWriting.JavaWriter.WriteIndent | src/main/java/com/collaborne/jsonschema/generator/java/JavaWriter.java:58-62 | appends one tab per level |
| JavaWriting.JavaWriter.WritePackage | src/main/java/com/collaborne/jsonschema/generator/java/JavaWriter.java:64-73 | appends `package p;` only for a non-empty package, and remembers the package in every case |
| JavaWriting.JavaWriter.WriteImport | src/main/java/com/collaborne/jsonschema/generator/java/JavaWriter.java:78-102 | writes nothing; the table becomes the offered table and stays valid |
| JavaWriting.JavaWriter.FlushImports | src/main/java/com/collaborne/jsonschema/generator/java/JavaWriter.java:104-117 | appends the import block only when imports exist and none were flushed, and is then flushed; for a valid table the block is an empty line and one `import` line per key in ascending order |
| JavaWriting.JavaWriter.WriteImportForce | src/main/java/com/collaborne/jsonschema/generator/java/JavaWriter.java:157-165 | appends `import p.R;` for a name with a package, nothing for the default package |
| JavaWriting.JavaWriter.AvailableShortName | src/main/java/com/collaborne/jsonschema/generator/java/JavaWriter.java:119-155 | without type arguments: the raw name for the default package, the active package or `java.lang`; the recorded short name for an imported name; the qualified name otherwise |
| JavaWriting.JavaWriter.WriteStaticImport | src/main/java/com/collaborne/jsonschema/generator/java/JavaWriter.java:167-178 | appends `import static [p.]R.m;` at once, uncollected |
| JavaWriting.JavaWriter.WriteClassStart | src/main/java/com/collaborne/jsonschema/generator/java/JavaWriter.java:180-182 | flushes pending imports, writes the plain header one level in, pushes the class |
| JavaWriting.JavaWriter.WriteClassStartWithSupertypes | src/main/java/com/collaborne/jsonschema/generator/java/JavaWriter.java:184-225 | flushes pending imports; writes an empty line, the indented header with non-empty `extends` and `implements` clauses, and ` {`; goes in one level; pushes the class |
| JavaWriting.JavaWriter.WriteClassHeader | src/main/java/com/collaborne/jsonschema/generator/java/JavaWriter.java:188-222 | appends the header text of the current level and imports |
| JavaWriting.JavaWriter.WriteSupertypes | src/main/java/com/collaborne/jsonschema/generator/java/JavaWriter.java:197-221 | appends ` keyword A, B` with shortened names, or nothing for an empty list |
| JavaWriting.JavaWriter.WriteClassEnd | src/main/java/com/collaborne/jsonschema/generator/java/JavaWriter.java:227-232 | goes out one level, appends the indented `}`, pops the innermost class; with no class open the brace is still written and the failed pop is reported |
| JavaWriting.JavaWriter.WriteField | src/main/java/com/collaborne/jsonschema/generator/java/JavaWriter.java:234-242 | appends the indented field declaration with the shortened type |
| JavaWriting.JavaWriter.WriteMethodBodyStart | src/main/java/com/collaborne/jsonschema/generator/java/JavaWriter.java:245-265 | appends an empty line and the indented method header with its formals, and goes in one level |
| JavaWriting.JavaWriter.WriteConstructorBodyStart | src/main/java/com/collaborne/jsonschema/generator/pojo/PojoStringGenerator.java:58 | appends an empty line and the indented constructor header named after the class, and goes in one level |
| JavaWriting.JavaWriter.WriteCode | src/main/java/com/collaborne/jsonschema/generator/java/JavaWriter.java:267-274 | appends each line indented and ended by a newline, in order |
| JavaWriting.JavaWriter.WriteMethodBodyEnd | src/main/java/com/collaborne/jsonschema/generator/java/JavaWriter.java:276-280 | goes out one level and appends the indented `}` |
| JavaWriting.JavaWriter.WriteFormalArguments | src/main/java/com/collaborne/jsonschema/generator/java/JavaWriter.java:255-262 | appends the formals separated by ", " |
| JavaWriting.JavaWriter.WriteFormalArgument | src/main/java/com/collaborne/jsonschema/generator/java/JavaWriter.java:282-286 | appends the shortened type, a space and the parameter name |
| JavaWriting.JavaWriter.WriteClassNames | src/main/java/com/collaborne/jsonschema/generator/java/JavaWriter.java:202-207 | appends the shortened names separated by ", " |
| JavaWriting.JavaWriter.WriteClassName | src/main/java/com/collaborne/jsonschema/generator/java/JavaWriter.java:294-297 | appends the shortest valid form of the name |
| JavaWriting.JavaWriter.WriteEmptyLine | src/main/java/com/collaborne/jsonschema/generator/java/JavaWriter.java:299-301 | appends one newline |
| JavaWriting.JavaWriter.Write | src/main/java/com/collaborne/jsonschema/generator/pojo/PojoStringGenerator.java:117 | appends the text unchanged |
| JavaWriting.JavaWriter.WriteAnnotation | src/main/java/com/collaborne/jsonschema/generator/pojo/PojoStringGenerator.java:68 | appends the indented `@Name` line with the shortened name |
| PojoStrings.Generate | src/main/java/com/collaborne/jsonschema/generator/pojo/PojoStringGenerator.java:135-143 | the result is `java.lang.String` exactly when the schema has no non-null `enum`; otherwise a declaration is generated |
| PojoStrings.StyleOf | src/main/java/com/collaborne/jsonschema/generator/pojo/PojoStringGenerator.java:152-163 | CLASS selects the class emitter, ENUM the enum emitter, and every other style none |
| PojoStrings.FirstNonText | src/main/java/com/collaborne/jsonschema/generator/pojo/PojoStringGenerator.java:170-173 | the position where the loop stops: all elements before it are texts, and it is the end or a non-text |
| PojoStrings.FirstNonTextUnique | src/main/java/com/collaborne/jsonschema/generator/pojo/PojoStringGenerator.java:170-173 | any position with only texts before it and a non-text or the end at it is that stopping position |
| PojoStrings.TextsOfSnoc | src/main/java/com/collaborne/jsonschema/generator/pojo/PojoStringGenerator.java:174-175 | (helper) the values handed to the emitter grow by the text of each element, in order |
| PojoStrings.ClassConstantLinesAt | src/main/java/com/collaborne/jsonschema/generator/pojo/PojoStringGenerator.java:82-84 | the j-th line of the CLASS style is `public static R NAME = new R("v");` for the j-th value |
| PojoStrings.EnumConstantsAt | src/main/java/com/collaborne/jsonschema/generator/pojo/PojoStringGenerator.java:119-120 | the j-th constant of the ENUM style is the indent then `NAME("v")` for the j-th value |
| PojoStrings.ValueCodeAgrees | src/main/java/com/collaborne/jsonschema/generator/pojo/PojoStringGenerator.java:81-84 | the values written one call after the other form the whole listing: one code line per value for CLASS, the constants joined by ",\n" for ENUM |
| PojoStrings.ValueCodeSnoc | src/main/java/com/collaborne/jsonschema/generator/pojo/PojoStringGenerator.java:114-122 | (helper) one more value adds its code; only the ENUM style puts ",\n" in front of each value after the first |
| PojoStrings.ValueListingSnoc | src/main/java/com/collaborne/jsonschema/generator/pojo/PojoStringGenerator.java:114-122 | (helper) the whole-list listing grows by the same step |
| PojoStrings.ValueStep | src/main/java/com/collaborne/jsonschema/generator/pojo/PojoStringGenerator.java:170-176 | (helper) one pass of the value loop extends the code of the earlier values to the code of the longer list |
| PojoStrings.NextValueCodeFirst | src/main/java/com/collaborne/jsonschema/generator/pojo/PojoStringGenerator.java:81-84 | (helper) the CLASS style ignores whether a value came before |
| PojoStrings.EnumSeparators | src/main/java/com/collaborne/jsonschema/generator/pojo/PojoStringGenerator.java:114-122 | the ENUM constants are the first constant, then ",\n" followed by each next constant, whatever the class name |
| PojoStrings.EnumConstantCommas | src/main/java/com/collaborne/jsonschema/generator/pojo/PojoStringGenerator.java:119-120 | a constant for a comma-free value contains no comma |
| PojoStrings.EnumSeparatorCount | src/main/java/com/collaborne/jsonschema/generator/pojo/PojoStringGenerator.java:114-122 | n comma-free values give an enum body with exactly n - 1 commas, whatever the class name |
| PojoStrings.SeparatorComma | src/main/java/com/collaborne/jsonschema/generator/pojo/PojoStringGenerator.java:117 | (helper) the separator holds exactly one comma |
| PojoStrings.ClassConstantLineUnbroken | src/main/java/com/collaborne/jsonschema/generator/pojo/PojoStringGenerator.java:83 | a constant line has no newline when the class name and value have none |
| PojoStrings.ClassConstantsOnePerLine | src/main/java/com/collaborne/jsonschema/generator/pojo/PojoStringGenerator.java:81-84 | n newline-free values give exactly n lines in the CLASS style |
| PojoStrings.SupportCodeParts | src/main/java/com/collaborne/jsonschema/generator/pojo/PojoStringGenerator.java:50-132 | the support code is the `;` (ENUM style with a value only), then the members both styles share, then, in the CLASS style only, `hashCode` and `equals` |
| PojoStrings.MembersStep | src/main/java/com/collaborne/jsonschema/generator/pojo/PojoStringGenerator.java:54-71 | (helper) the support members' text grows by one member's text per member |
| PojoStrings.EnumEmitter.constructor | src/main/java/com/collaborne/jsonschema/generator/pojo/PojoStringGenerator.java:75-112 | an emitter for the class and style, with no value written yet |
| PojoStrings.EnumEmitter.GenerateEnumValue | src/main/java/com/collaborne/jsonschema/generator/pojo/PojoStringGenerator.java:81-84 | appends the value's code at the current level; only the ENUM style records that a value was written |
| PojoStrings.EnumEmitter.GenerateEnumValues | src/main/java/com/collaborne/jsonschema/generator/pojo/PojoStringGenerator.java:169-176 | stops at the first non-text element, having appended the code of every text before it in order; the ENUM emitter has written a value exactly when that prefix is non-empty |
| PojoStrings.EnumEmitter.GenerateAdditionalCode | src/main/java/com/collaborne/jsonschema/generator/pojo/PojoStringGenerator.java:50-132 | appends the support code at an unchanged level; the ENUM assertion holds exactly when a value was written |
| PojoStrings.EnumEmitter.WriteMembers | src/main/java/com/collaborne/jsonschema/generator/pojo/PojoStringGenerator.java:54-71 | writes the members in order at an unchanged level |
| PojoStrings.EnumEmitter.WriteMember | src/main/java/com/collaborne/jsonschema/generator/pojo/PojoStringGenerator.java:54-60 | writes one member with the writer calls that produce it, at an unchanged level |
| PojoStrings.GenerateType | src/main/java/com/collaborne/jsonschema/generator/pojo/PojoStringGenerator.java:145-181 | a non-array `enum` or an unknown style fails before anything is written or imported; otherwise `java.util.Objects` is offered, the class is opened, the text values are written up to the first non-text, which fails the run, the support code is written only when all were texts, and the class is closed on every path with level and class stack as before |
| PojoStrings.WriteDeclaration | src/main/java/com/collaborne/jsonschema/generator/pojo/PojoStringGenerator.java:165-180 | the writer ends in the declared state for the values, with level and class stack as before |
| PojoStrings.DeclaredOutcome | src/main/java/com/collaborne/jsonschema/generator/pojo/PojoStringGenerator.java:165-180 | after the declaration the run completes exactly when every `enum` value is a text, a failure names the context type and a non-text value of the array, and the ENUM style's assertion fails exactly for an empty array |
| PojoStrings.OpenDeclaration | src/main/java/com/collaborne/jsonschema/generator/pojo/PojoStringGenerator.java:165-168 | offers `java.util.Objects`, flushes pending imports and opens the class one level in |
| PojoStrings.WriteBodyAndEnd | src/main/java/com/collaborne/jsonschema/generator/pojo/PojoStringGenerator.java:169-180 | the body, then the closing brace one level out, on the success and on the failure path |
| PojoStrings.WriteBody | src/main/java/com/collaborne/jsonschema/generator/pojo/PojoStringGenerator.java:169-177 | the values up to the first non-text, failing there, otherwise followed by the support code |
| Mappings.Uri.Text | src/main/java/com/collaborne/jsonschema/generator/model/Mapping.java:116 | a URI's text is `scheme:rest`, or the reference alone without a scheme |
| Mappings.Mapping.Empty | src/main/java/com/collaborne/jsonschema/generator/model/Mapping.java:39-41 | every reference is null and the flag is false |
| Mappings.Mapping.constructor | src/main/java/com/collaborne/jsonschema/generator/model/Mapping.java:43-46 | sets target and class name only, either possibly null; the class to generate is then the referenced class |
| Mappings.Mapping.GetGeneratedClassName | src/main/java/com/collaborne/jsonschema/generator/model/Mapping.java:65-73 | the explicit name when set, otherwise the class name; null exactly when both are null |
| Mappings.Mapping.SetTarget | src/main/java/com/collaborne/jsonschema/generator/model/Mapping.java:52-54 | the getter returns the value set; no other field changes |
| Mappings.Mapping.SetClassName | src/main/java/com/collaborne/jsonschema/generator/model/Mapping.java:61-63 | the getter returns the value; the generated name follows it only while no explicit one is set |
| Mappings.Mapping.SetGeneratedClassName | src/main/java/com/collaborne/jsonschema/generator/model/Mapping.java:75-77 | an explicit name wins; setting null restores the fallback to the class name, which is unchanged |
| Mappings.Mapping.SetExtends | src/main/java/com/collaborne/jsonschema/generator/model/Mapping.java:84-86 | the getter returns the value set |
| Mappings.Mapping.SetImplements | src/main/java/com/collaborne/jsonschema/generator/model/Mapping.java:93-95 | the getter returns the list set |
| Mappings.Mapping.SetIgnoreAdditionalProperties | src/main/java/com/collaborne/jsonschema/generator/model/Mapping.java:101-103 | the getter returns the flag set |
| Mappings.Mapping.SetModifiers | src/main/java/com/collaborne/jsonschema/generator/model/Mapping.java:110-112 | the getter returns the list set |
| Mappings.Mapping.ToString | src/main/java/com/collaborne/jsonschema/generator/model/Mapping.java:114-117 | `Mapping(` then the target's text, ` -> `, the class name's text and `)`, with "null" for a missing part, at the stated positions |
| Generators.Generator.constructor | src/main/java/com/collaborne/jsonschema/generator/AbstractGenerator.java:32-34 | no feature set, no mapping, no default package recorded |
| Generators.Generator.GetFeature | src/main/java/com/collaborne/jsonschema/generator/AbstractGenerator.java:38-41 | the stored value, or the feature's default while none is stored |
| Generators.Generator.SetFeature | src/main/java/com/collaborne/jsonschema/generator/AbstractGenerator.java:43-46 | stores the value and returns the earlier value or default; every other feature reads as before |
| Generators.Generator.AddMapping | src/main/java/com/collaborne/jsonschema/generator/AbstractGenerator.java:48-54 | records the mapping, possibly null, under exactly that URI, replacing an earlier one; a relative URI is recorded too, with the warning flagged |
| Generators.Generator.GetMapping | src/main/java/com/collaborne/jsonschema/generator/AbstractGenerator.java:106-108 | the mapping recorded for exactly that URI; null when none was recorded or null was |
| Generators.Generator.AddDefaultPackageName | src/main/java/com/collaborne/jsonschema/generator/AbstractGenerator.java:56-59 | records the package for the base URI; no later `getDefaultPackageName` answer changes |
| Generators.Generator.GetDefaultPackageName | src/main/java/com/collaborne/jsonschema/generator/AbstractGenerator.java:67-78 | the value of the default-package feature, whatever the type |

## Left out

- I/O is not modelled. The `BufferedWriter` is an append-only string. `close` and `IOException` are not modelled, and no write fails.
- Logging is not modelled. `addMapping`'s warning is returned as a flag. `getDefaultPackageName`'s warning is dropped.
- `setOutputDirectory`, `getOutputDirectory`, `setSchemaLoader` and `getSchemaLoader` are plain accessors with no logic. They are not modelled.
- `ClassName` is not part of the core. Only what the core needs is modelled: package, raw name, type arguments, the canonical text, and `parse` for names without generics. Parsing type arguments is not modelled, because `flushImports` re-parses keys that have none.
- `writeConstructorBodyStart`, `writeAnnotation` and `write` are called by the string strategy but are not in the writer's source. `writeEmptyLine` is protected there. These four are modelled by analogy with `writeMethodBodyStart` and `writeField`. Their exact formats are an assumption.
- `writeSchemaDocumentation`, `super.generate()` and the generation context are not modelled. The class name and the enum style arrive as parameters of `GenerateType`.
- The JSON tree and the schema are reduced to what the strategy tests: null, text, array, and anything else.
- `URI` is a scheme and a reference. Two URIs are equal when they are equal as structures. Normalisation and `URI.toString` escaping are not modelled.
- Strings are sequences of Unicode code points. UTF-16 code units are not modelled. `compareTo` is lexicographic order on those characters.
- Text.UpperCasing: `toUpperCase(Locale.ENGLISH)` is modelled for ASCII only. Non-ASCII and length-changing case mappings are not modelled.
- PojoStrings.EnumEmitter.GenerateAdditionalCode: the ENUM style's `assert wroteOneValue` is returned as a verdict and does not stop the output, because the JVM runs with assertions off by default.
- Generators.Generator.SetFeature: `Feature.get` and `Feature.set` are not in the core. `set` is taken to store the value and return the earlier value or the default. Only text and kind values are modelled.
- Generators.Generator.GetDefaultPackageName: requires the stored default-package value to be a text. Java's typed `Feature<String>` guarantees this.
- Imports.OfferSettles, Imports.ImportIdempotent and Imports.ImportedOrShadowed require dot-free raw names, as `parse` produces. With a dot in a raw name, two different classes can share a qualified key.
- `Visibility` and `Kind` beyond `PUBLIC`/`PRIVATE` and `CLASS`/`ENUM` stand as `OtherVisibility`/`OtherKind` with their keyword.
- Output written before a `CodeGenerationException` is kept, as in the source. That output is not taken back.
- JavaWriting.JavaWriter.WriteClassEnd: the `EmptyStackException` is returned as a flag. No exception propagates.
- JavaWriting.JavaWriter.WriteMethodBodyStart: `typesAndValues` is a list of (type, name) pairs. The odd-length list and the mistyped element cannot be written in the model. In Java, with assertions off, the odd length writes a partial header and then throws `ArrayIndexOutOfBoundsException`. A mistyped element throws `ClassCastException`. Every call in the core passes well-formed pairs. The same holds for WriteFormalArguments and WriteConstructorBodyStart.
- Generators.Generator.SetFeature: a null feature value has no counterpart, because `Feature.set` is not part of this model.
- PojoStrings.GenerateType: a null enum style has no counterpart. In Java it throws `NullPointerException` at the switch (PojoStringGenerator.java:153). The feature always has a default, so a null reaches the switch only if null was set.
- Null `ClassName`, `String` and list arguments to the writer's methods are not modelled (they throw `NullPointerException` in Java). `Mapping` references and mappings may be null, and are modelled as `Option`.
- PojoStrings.EnumEmitter.WriteMembers: the support members are one list of `Member` values written by a loop. The source uses straight-line writer calls in the same order. `generateType` is split into helper methods along its phases.
- The Jackson annotations on `Mapping` (`@JsonDeserialize` converters) are deserialisation configuration. They are not modelled.
- `Mapping`'s getters other than `getGeneratedClassName` return a field unchanged. They carry no contract of their own.
