/** The writer's import table, `package.rawClassName -> rawClassName`, as
    values: how `writeImport` grows it and how `getAvailableShortName` reads it. */
module Imports {
  import opened Text
  import opened ClassNames

  /** Map of all imports: `package.rawClassName` to `rawClassName`. */
  type ImportTable = map<string, string>

  /** Names in the default package, in the active package or in `java.lang`
      are never imported and always written by their raw name. */
  predicate NeedsNoImport(packageName: string, activePackage: string)
  {
    packageName == "" || packageName == activePackage || packageName == JavaLang
  }

  /** One name asks for its raw name: the first claimant of a raw name wins,
      a later one is not recorded. */
  function Claim(t: ImportTable, c: ClassName): (r: ImportTable)
    ensures t.Keys <= r.Keys <= t.Keys + {Qualified(c)}
    ensures c.rawClassName in r.Values
    ensures c.rawClassName in t.Values ==> r == t
  {
    if c.rawClassName in t.Values then t else t[Qualified(c) := c.rawClassName]
  }

  /** The table after `writeImport(c)`: nothing for a name that needs no
      import (its type arguments are not looked at either), otherwise the
      name claims its raw name and then every type argument is offered in
      turn. The table only ever gains keys. */
  function Offer(t: ImportTable, activePackage: string, c: ClassName): (r: ImportTable)
    ensures t.Keys <= r.Keys
    decreases c
  {
    if NeedsNoImport(c.packageName, activePackage) then t
    else
      match c.typeArguments
      case NoTypeArguments => Claim(t, c)
      case TypeArguments(xs) => OfferAll(Claim(t, c), activePackage, xs)
  }

  /** The names of `cs` offered one after the other, in order. */
  function OfferAll(t: ImportTable, activePackage: string, cs: seq<ClassName>): (r: ImportTable)
    ensures t.Keys <= r.Keys
    decreases cs
  {
    if cs == [] then t
    else Offer(OfferAll(t, activePackage, cs[..|cs| - 1]), activePackage, cs[|cs| - 1])
  }

  /** Each key is `package + "." + value` for a non-empty package. */
  predicate KeysQualified(t: ImportTable)
  {
    forall k :: k in t ==> |t[k]| + 1 < |k| && k == k[..|k| - |t[k]| - 1] + "." + t[k]
  }

  /** No two keys claim the same raw name. */
  predicate ShortNamesUnique(t: ImportTable)
  {
    forall k1, k2 :: k1 in t && k2 in t && k1 != k2 ==> t[k1] != t[k2]
  }

  predicate ValidTable(t: ImportTable)
  {
    KeysQualified(t) && ShortNamesUnique(t)
  }

  /** Every recorded raw name is dot-free. */
  predicate DotFreeValues(t: ImportTable)
  {
    forall k :: k in t ==> '.' !in t[k]
  }

  /** `u` keeps every entry of `t`. */
  predicate Extends(t: ImportTable, u: ImportTable)
  {
    forall k :: k in t ==> k in u && u[k] == t[k]
  }

  lemma ClaimValid(t: ImportTable, c: ClassName)
    requires ValidTable(t) && c.packageName != ""
    ensures ValidTable(Claim(t, c))
  {
    if c.rawClassName !in t.Values {
      var q := Qualified(c);
      var u := t[q := c.rawClassName];
      assert q[..|q| - |c.rawClassName| - 1] == c.packageName;
      assert KeysQualified(u) by {
        forall k | k in u
          ensures |u[k]| + 1 < |k| && k == k[..|k| - |u[k]| - 1] + "." + u[k]
        {
          if k != q { assert u[k] == t[k]; }
        }
      }
      assert ShortNamesUnique(u) by {
        forall k1, k2 | k1 in u && k2 in u && k1 != k2
          ensures u[k1] != u[k2]
        {
          if k1 == q { assert u[k2] == t[k2] && t[k2] in t.Values; }
          else if k2 == q { assert u[k1] == t[k1] && t[k1] in t.Values; }
        }
      }
    }
  }

  /** `writeImport` keeps both table invariants. */
  lemma {:induction false} OfferValid(t: ImportTable, activePackage: string, c: ClassName)
    requires ValidTable(t)
    ensures ValidTable(Offer(t, activePackage, c))
    decreases c
  {
    if !NeedsNoImport(c.packageName, activePackage) {
      ClaimValid(t, c);
      match c.typeArguments
      case NoTypeArguments =>
      case TypeArguments(xs) => OfferAllValid(Claim(t, c), activePackage, xs);
    }
  }

  lemma {:induction false} OfferAllValid(t: ImportTable, activePackage: string, cs: seq<ClassName>)
    requires ValidTable(t)
    ensures ValidTable(OfferAll(t, activePackage, cs))
    decreases cs
  {
    if cs != [] {
      OfferAllValid(t, activePackage, cs[..|cs| - 1]);
      OfferValid(OfferAll(t, activePackage, cs[..|cs| - 1]), activePackage, cs[|cs| - 1]);
    }
  }

  /** With dot-free raw names a claim never rewrites an existing entry. */
  lemma ClaimExtends(t: ImportTable, c: ClassName)
    requires KeysQualified(t) && DotFreeValues(t)
    requires c.packageName != "" && '.' !in c.rawClassName
    ensures Extends(t, Claim(t, c))
    ensures DotFreeValues(Claim(t, c))
  {
    var q := Qualified(c);
    if c.rawClassName !in t.Values && q in t {
      QualifiedInjective(q[..|q| - |t[q]| - 1], t[q], c.packageName, c.rawClassName);
      assert false;
    }
  }

  /** For dot-free names `writeImport` only adds entries and keeps the
      invariants. */
  lemma {:induction false} OfferExtends(t: ImportTable, activePackage: string, c: ClassName)
    requires ValidTable(t) && DotFreeValues(t) && DotFree(c)
    ensures Extends(t, Offer(t, activePackage, c))
    ensures ValidTable(Offer(t, activePackage, c)) && DotFreeValues(Offer(t, activePackage, c))
    decreases c
  {
    if !NeedsNoImport(c.packageName, activePackage) {
      ClaimValid(t, c);
      ClaimExtends(t, c);
      match c.typeArguments
      case NoTypeArguments =>
      case TypeArguments(xs) =>
        OfferAllExtends(Claim(t, c), activePackage, xs);
    }
  }

  lemma {:induction false} OfferAllExtends(t: ImportTable, activePackage: string, cs: seq<ClassName>)
    requires ValidTable(t) && DotFreeValues(t)
    requires forall i :: 0 <= i < |cs| ==> DotFree(cs[i])
    ensures Extends(t, OfferAll(t, activePackage, cs))
    ensures ValidTable(OfferAll(t, activePackage, cs)) && DotFreeValues(OfferAll(t, activePackage, cs))
    decreases cs
  {
    if cs != [] {
      var init := cs[..|cs| - 1];
      OfferAllExtends(t, activePackage, init);
      OfferExtends(OfferAll(t, activePackage, init), activePackage, cs[|cs| - 1]);
    }
  }

  /** Every name `writeImport(c)` would record already has its raw name
      claimed in `t`. */
  predicate Settled(t: ImportTable, activePackage: string, c: ClassName)
  {
    NeedsNoImport(c.packageName, activePackage) ||
    (c.rawClassName in t.Values &&
     match c.typeArguments
     case NoTypeArguments => true
     case TypeArguments(xs) => forall i :: 0 <= i < |xs| ==> Settled(t, activePackage, xs[i]))
  }

  lemma {:induction false} SettledUnchanged(t: ImportTable, activePackage: string, c: ClassName)
    requires Settled(t, activePackage, c)
    ensures Offer(t, activePackage, c) == t
    decreases c
  {
    if !NeedsNoImport(c.packageName, activePackage) {
      match c.typeArguments
      case NoTypeArguments =>
      case TypeArguments(xs) => SettledAllUnchanged(t, activePackage, xs);
    }
  }

  lemma {:induction false} SettledAllUnchanged(t: ImportTable, activePackage: string, cs: seq<ClassName>)
    requires forall i :: 0 <= i < |cs| ==> Settled(t, activePackage, cs[i])
    ensures OfferAll(t, activePackage, cs) == t
    decreases cs
  {
    if cs != [] {
      SettledAllUnchanged(t, activePackage, cs[..|cs| - 1]);
      SettledUnchanged(t, activePackage, cs[|cs| - 1]);
    }
  }

  lemma {:induction false} SettledStays(t: ImportTable, u: ImportTable, activePackage: string, c: ClassName)
    requires Settled(t, activePackage, c) && Extends(t, u)
    ensures Settled(u, activePackage, c)
    decreases c
  {
    if !NeedsNoImport(c.packageName, activePackage) {
      var k :| k in t && t[k] == c.rawClassName;
      assert u[k] == c.rawClassName;
      match c.typeArguments
      case NoTypeArguments =>
      case TypeArguments(xs) =>
        forall i | 0 <= i < |xs|
          ensures Settled(u, activePackage, xs[i])
        {
          SettledStays(t, u, activePackage, xs[i]);
        }
    }
  }

  lemma {:induction false} OfferSettles(t: ImportTable, activePackage: string, c: ClassName)
    requires ValidTable(t) && DotFreeValues(t) && DotFree(c)
    ensures Settled(Offer(t, activePackage, c), activePackage, c)
    decreases c
  {
    if !NeedsNoImport(c.packageName, activePackage) {
      var t1 := Claim(t, c);
      ClaimValid(t, c);
      ClaimExtends(t, c);
      assert c.rawClassName in t1.Values by {
        if c.rawClassName !in t.Values {
          assert t1[Qualified(c)] == c.rawClassName;
        }
      }
      match c.typeArguments
      case NoTypeArguments =>
      case TypeArguments(xs) =>
        var t2 := OfferAll(t1, activePackage, xs);
        OfferAllSettles(t1, activePackage, xs);
        OfferAllExtends(t1, activePackage, xs);
        var k :| k in t1 && t1[k] == c.rawClassName;
        assert t2[k] == c.rawClassName;
    }
  }

  lemma {:induction false} OfferAllSettles(t: ImportTable, activePackage: string, cs: seq<ClassName>)
    requires ValidTable(t) && DotFreeValues(t)
    requires forall i :: 0 <= i < |cs| ==> DotFree(cs[i])
    ensures forall i :: 0 <= i < |cs| ==> Settled(OfferAll(t, activePackage, cs), activePackage, cs[i])
    decreases cs
  {
    if cs != [] {
      var init := cs[..|cs| - 1];
      var t1 := OfferAll(t, activePackage, init);
      var t2 := Offer(t1, activePackage, cs[|cs| - 1]);
      OfferAllSettles(t, activePackage, init);
      OfferAllExtends(t, activePackage, init);
      OfferSettles(t1, activePackage, cs[|cs| - 1]);
      OfferExtends(t1, activePackage, cs[|cs| - 1]);
      forall i | 0 <= i < |init|
        ensures Settled(t2, activePackage, cs[i])
      {
        assert cs[i] == init[i];
        SettledStays(t1, t2, activePackage, cs[i]);
      }
    }
  }

  /** Importing the same name twice changes nothing the first import did not. */
  lemma ImportIdempotent(t: ImportTable, activePackage: string, c: ClassName)
    requires ValidTable(t) && DotFreeValues(t) && DotFree(c)
    ensures Offer(Offer(t, activePackage, c), activePackage, c) == Offer(t, activePackage, c)
  {
    OfferSettles(t, activePackage, c);
    SettledUnchanged(Offer(t, activePackage, c), activePackage, c);
  }

  /** The class-name part of `getAvailableShortName`: the raw name when no
      import is needed, the recorded short name when the name is imported,
      the qualified name otherwise. */
  function BaseName(t: ImportTable, activePackage: string, c: ClassName): string
  {
    if c.packageName == "" then c.rawClassName
    else if c.packageName == activePackage || c.packageName == JavaLang then c.rawClassName
    else if Qualified(c) in t then t[Qualified(c)]
    else Qualified(c)
  }

  /** `getAvailableShortName(c)`: the base name, then the non-empty type
      arguments, each shortened the same way, as `<a,b>`. */
  function ShortName(t: ImportTable, activePackage: string, c: ClassName): string
    decreases c
  {
    BaseName(t, activePackage, c) +
    match c.typeArguments
    case NoTypeArguments => ""
    case TypeArguments(xs) =>
      if xs == [] then "" else "<" + Join(",", ShortNames(t, activePackage, xs)) + ">"
  }

  /** The short name starts with the base name; it is the base name alone
      exactly when there are no type arguments, and otherwise ends in `>`. */
  lemma ShortNameParts(t: ImportTable, activePackage: string, c: ClassName)
    ensures var b := BaseName(t, activePackage, c);
            var r := ShortName(t, activePackage, c);
            |b| <= |r| && r[..|b|] == b &&
            (r == b <==> Arguments(c) == []) &&
            (Arguments(c) != [] ==> r[|r| - 1] == '>')
  {
    var b := BaseName(t, activePackage, c);
    match c.typeArguments
    case NoTypeArguments =>
    case TypeArguments(xs) =>
      if xs != [] {
        var tail := "<" + Join(",", ShortNames(t, activePackage, xs)) + ">";
        assert ShortName(t, activePackage, c) == b + tail;
        assert (b + tail)[..|b|] == b;
      }
  }

  /** The short name of each name of `cs`, in order. */
  function ShortNames(t: ImportTable, activePackage: string, cs: seq<ClassName>): (r: seq<string>)
    ensures |r| == |cs|
    ensures forall i :: 0 <= i < |cs| ==> r[i] == ShortName(t, activePackage, cs[i])
    decreases cs
  {
    if cs == [] then [] else ShortNames(t, activePackage, cs[..|cs| - 1]) + [ShortName(t, activePackage, cs[|cs| - 1])]
  }

  /** The base name is the bare raw name exactly when no import is needed or
      the name is in the table; otherwise it is `package.raw`. */
  lemma BaseNameRule(t: ImportTable, activePackage: string, c: ClassName)
    requires KeysQualified(t) && DotFreeValues(t) && '.' !in c.rawClassName
    ensures BaseName(t, activePackage, c) ==
      if NeedsNoImport(c.packageName, activePackage) || Qualified(c) in t then c.rawClassName else Qualified(c)
  {
    var q := Qualified(c);
    if !NeedsNoImport(c.packageName, activePackage) && q in t {
      QualifiedInjective(q[..|q| - |t[q]| - 1], t[q], c.packageName, c.rawClassName);
    }
  }

  /** After `writeImport(c)` the name is either imported under its raw name,
      or its raw name belongs to another import and it is written in full. */
  lemma ImportedOrShadowed(t: ImportTable, activePackage: string, c: ClassName)
    requires ValidTable(t) && DotFreeValues(t) && DotFree(c)
    requires !NeedsNoImport(c.packageName, activePackage)
    ensures var u := Offer(t, activePackage, c);
      (Qualified(c) in u && u[Qualified(c)] == c.rawClassName && BaseName(u, activePackage, c) == c.rawClassName) ||
      (Qualified(c) !in u && BaseName(u, activePackage, c) == Qualified(c) &&
       exists k :: k in u && u[k] == c.rawClassName)
  {
    var u := Offer(t, activePackage, c);
    OfferSettles(t, activePackage, c);
    OfferExtends(t, activePackage, c);
    BaseNameRule(u, activePackage, c);
    var q := Qualified(c);
    if q in u {
      var k :| k in u && u[k] == c.rawClassName;
      QualifiedInjective(q[..|q| - |u[q]| - 1], u[q], c.packageName, c.rawClassName);
    }
  }

  /** Two different names with one raw name: the first one offered keeps the
      short form, the second is not recorded and is written fully qualified. */
  lemma FirstClaimantWins(t: ImportTable, activePackage: string, c1: ClassName, c2: ClassName)
    requires !NeedsNoImport(c1.packageName, activePackage) && !NeedsNoImport(c2.packageName, activePackage)
    requires c1.rawClassName == c2.rawClassName && c1.packageName != c2.packageName
    requires Arguments(c1) == [] && Arguments(c2) == []
    requires c1.rawClassName !in t.Values && Qualified(c2) !in t
    ensures var t1 := Offer(t, activePackage, c1);
      var t2 := Offer(t1, activePackage, c2);
      t2 == t1 &&
      ShortName(t2, activePackage, c1) == c1.rawClassName &&
      ShortName(t2, activePackage, c2) == Qualified(c2)
  {
    QualifiedSameRaw(c1.packageName, c2.packageName, c1.rawClassName);
    var t1 := Offer(t, activePackage, c1);
    assert t1 == t[Qualified(c1) := c1.rawClassName];
    assert t1[Qualified(c1)] == c2.rawClassName;
  }

  /** None of the names inside `c` can be shortened. */
  predicate NothingShortens(t: ImportTable, activePackage: string, c: ClassName)
  {
    !NeedsNoImport(c.packageName, activePackage) && Qualified(c) !in t &&
    match c.typeArguments
    case NoTypeArguments => true
    case TypeArguments(xs) => forall i :: 0 <= i < |xs| ==> NothingShortens(t, activePackage, xs[i])
  }

  /** Against the canonical format: when nothing can be shortened,
      `getAvailableShortName` yields the fully qualified text, arguments
      included. */
  lemma {:induction false} ShortNameUnshortened(t: ImportTable, activePackage: string, c: ClassName)
    requires NothingShortens(t, activePackage, c)
    ensures ShortName(t, activePackage, c) == Format(c)
    decreases c
  {
    match c.typeArguments
    case NoTypeArguments =>
    case TypeArguments(xs) =>
      var formats := seq(|xs|, i requires 0 <= i < |xs| => Format(xs[i]));
      forall i | 0 <= i < |xs|
        ensures ShortNames(t, activePackage, xs)[i] == formats[i]
      {
        ShortNameUnshortened(t, activePackage, xs[i]);
      }
      assert ShortNames(t, activePackage, xs) == formats;
  }
}
