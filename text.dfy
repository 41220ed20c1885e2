/** String building blocks shared by the writer and the generators:
    indentation, joining, counting, ASCII upper-casing and the lexicographic
    order that Java's String.compareTo imposes. */
module Text {

  /** `n` tab characters; a negative count yields none, as a
      `for (int i = 0; i < n; i++)` loop does. */
  function Tabs(n: int): (r: string)
    ensures |r| == if n < 0 then 0 else n
  {
    if n <= 0 then "" else Tabs(n - 1) + "\t"
  }

  /** An indentation holds nothing but tabs. */
  lemma {:induction false} TabsOnly(n: int)
    ensures forall i :: 0 <= i < |Tabs(n)| ==> Tabs(n)[i] == '\t'
  {
    if n > 0 {
      TabsOnly(n - 1);
    }
  }

  /** The strings of `xs` written one after the other. */
  function Concat(xs: seq<string>): string
  {
    if xs == [] then "" else Concat(xs[..|xs| - 1]) + xs[|xs| - 1]
  }

  /** The strings of `xs` with `sep` written between neighbours. */
  function Join(sep: string, xs: seq<string>): string
  {
    if |xs| == 0 then ""
    else if |xs| == 1 then xs[0]
    else Join(sep, xs[..|xs| - 1]) + sep + xs[|xs| - 1]
  }

  /** Regrouping appended text. */
  lemma Assoc(a: string, b: string, c: string)
    ensures a + b + c == a + (b + c)
  {
  }

  /** The texts `f` gives the elements of `xs`, one after the other. */
  function ConcatMap<T>(f: T -> string, xs: seq<T>): string
  {
    if xs == [] then "" else ConcatMap(f, xs[..|xs| - 1]) + f(xs[|xs| - 1])
  }

  lemma ConcatMapSnoc<T>(f: T -> string, xs: seq<T>, x: T)
    ensures ConcatMap(f, xs + [x]) == ConcatMap(f, xs) + f(x)
  {
    assert (xs + [x])[..|xs|] == xs;
  }

  lemma {:induction false} ConcatMapAppend<T>(f: T -> string, xs: seq<T>, ys: seq<T>)
    ensures ConcatMap(f, xs + ys) == ConcatMap(f, xs) + ConcatMap(f, ys)
  {
    if ys != [] {
      var init, last := ys[..|ys| - 1], ys[|ys| - 1];
      ConcatMapAppend(f, xs, init);
      assert xs + ys == (xs + init) + [last];
      ConcatMapSnoc(f, xs + init, last);
      ConcatMapSnoc(f, init, last);
      Assoc(ConcatMap(f, xs), ConcatMap(f, init), f(last));
    } else {
      assert xs + ys == xs;
    }
  }

  lemma ConcatSnoc(xs: seq<string>, x: string)
    ensures Concat(xs + [x]) == Concat(xs) + x
  {
    assert (xs + [x])[..|xs|] == xs;
  }

  lemma JoinSnoc(sep: string, xs: seq<string>, x: string)
    requires xs != []
    ensures Join(sep, xs + [x]) == Join(sep, xs) + sep + x
  {
    assert (xs + [x])[..|xs|] == xs;
  }

  /** An independent description of Join: the first element, then every
      later element preceded by exactly one separator. So nothing precedes
      the first element and a list of n elements carries n - 1 separators. */
  lemma {:induction false} JoinSeparatesTail(sep: string, xs: seq<string>)
    requires xs != []
    ensures Join(sep, xs) == xs[0] + Concat(seq(|xs| - 1, i requires 0 <= i < |xs| - 1 => sep + xs[i + 1]))
  {
    var tail := seq(|xs| - 1, i requires 0 <= i < |xs| - 1 => sep + xs[i + 1]);
    if |xs| == 1 {
      assert tail == [];
    } else {
      var init := xs[..|xs| - 1];
      JoinSeparatesTail(sep, init);
      var initTail := seq(|init| - 1, i requires 0 <= i < |init| - 1 => sep + init[i + 1]);
      assert tail == initTail + [sep + xs[|xs| - 1]];
      ConcatSnoc(initTail, sep + xs[|xs| - 1]);
    }
  }

  /** Number of occurrences of the character `c` in `s`. */
  function Occurrences(c: char, s: string): nat
  {
    if s == [] then 0 else Occurrences(c, s[..|s| - 1]) + (if s[|s| - 1] == c then 1 else 0)
  }

  lemma {:induction false} OccurrencesNone(c: char, s: string)
    ensures Occurrences(c, s) == 0 <==> c !in s
  {
    if s != [] {
      OccurrencesNone(c, s[..|s| - 1]);
      assert s == s[..|s| - 1] + [s[|s| - 1]];
    }
  }

  lemma {:induction false} OccurrencesAppend(c: char, a: string, b: string)
    ensures Occurrences(c, a + b) == Occurrences(c, a) + Occurrences(c, b)
  {
    if b != [] {
      assert (a + b)[..|a + b| - 1] == a + b[..|b| - 1];
      OccurrencesAppend(c, a, b[..|b| - 1]);
    } else {
      assert a + b == a;
    }
  }

  /** With a separator holding `c` once, n >= 1 elements free of `c` join
      into a text holding it n - 1 times: every `c` belongs to a separator. */
  lemma {:induction false} JoinOccurrences(c: char, sep: string, xs: seq<string>)
    requires xs != [] && Occurrences(c, sep) == 1
    requires forall i :: 0 <= i < |xs| ==> Occurrences(c, xs[i]) == 0
    ensures Occurrences(c, Join(sep, xs)) == |xs| - 1
  {
    if |xs| > 1 {
      var init := xs[..|xs| - 1];
      JoinOccurrences(c, sep, init);
      OccurrencesAppend(c, Join(sep, init), sep);
      OccurrencesAppend(c, Join(sep, init) + sep, xs[|xs| - 1]);
    }
  }

  /** Upper-casing of one character as `toUpperCase(Locale.ENGLISH)` does it
      on the ASCII letters. */
  function UpperChar(ch: char): char
  {
    if 'a' <= ch <= 'z' then (ch as int - 32) as char else ch
  }

  predicate IsAsciiLower(ch: char)
  {
    'a' <= ch <= 'z'
  }

  /** ASCII-only upper-casing, character by character. */
  function ToUpperAscii(s: string): (r: string)
    ensures |r| == |s|
  {
    seq(|s|, i requires 0 <= i < |s| => UpperChar(s[i]))
  }

  /** Upper-casing leaves no lower-case ASCII letter behind, changes no other
      character, and applying it twice is the same as applying it once. */
  lemma UpperCasing(s: string)
    ensures forall i :: 0 <= i < |s| ==> !IsAsciiLower(ToUpperAscii(s)[i])
    ensures forall i :: 0 <= i < |s| && !IsAsciiLower(s[i]) ==> ToUpperAscii(s)[i] == s[i]
    ensures ToUpperAscii(ToUpperAscii(s)) == ToUpperAscii(s)
  {
  }

  /** A character that is not an upper-case ASCII letter appears in the
      upper-cased text only if it appears in the text. */
  lemma UpperAvoids(s: string, ch: char)
    requires ch !in s && !('A' <= ch <= 'Z')
    ensures ch !in ToUpperAscii(s)
  {
    forall k | 0 <= k < |s|
      ensures ToUpperAscii(s)[k] != ch
    {
      assert s[k] != ch;
    }
  }

  /** `a` sorts strictly before `b`: Java's `a.compareTo(b) < 0`, which compares
      character by character and puts a proper prefix first. */
  predicate Below(a: string, b: string)
  {
    if a == [] then b != []
    else if b == [] then false
    else if a[0] != b[0] then a[0] < b[0]
    else Below(a[1..], b[1..])
  }

  lemma {:induction false} BelowIrreflexive(a: string)
    ensures !Below(a, a)
  {
    if a != [] {
      BelowIrreflexive(a[1..]);
    }
  }

  lemma {:induction false} BelowAsymmetric(a: string, b: string)
    requires Below(a, b)
    ensures !Below(b, a)
  {
    if a != [] && b != [] && a[0] == b[0] {
      BelowAsymmetric(a[1..], b[1..]);
    }
  }

  lemma {:induction false} BelowTransitive(a: string, b: string, c: string)
    requires Below(a, b) && Below(b, c)
    ensures Below(a, c)
  {
    if a != [] && b != [] && c != [] && a[0] == b[0] && b[0] == c[0] {
      BelowTransitive(a[1..], b[1..], c[1..]);
    }
  }

  lemma {:induction false} BelowTotal(a: string, b: string)
    ensures a == b || Below(a, b) || Below(b, a)
  {
    if a != [] && b != [] && a[0] == b[0] {
      BelowTotal(a[1..], b[1..]);
      if a[1..] == b[1..] {
        assert a == [a[0]] + a[1..] && b == [b[0]] + b[1..];
      }
    }
  }

  /** `m` is the first element of `s` in sorted order. */
  predicate IsLeast(m: string, s: set<string>)
  {
    m in s && forall x :: x in s && x != m ==> Below(m, x)
  }

  lemma LeastUnique(s: set<string>)
    ensures forall m, n :: IsLeast(m, s) && IsLeast(n, s) ==> m == n
  {
    forall m, n | IsLeast(m, s) && IsLeast(n, s)
      ensures m == n
    {
      if m != n {
        BelowAsymmetric(m, n);
      }
    }
  }

  lemma {:induction false} LeastExists(s: set<string>)
    requires s != {}
    ensures exists m :: IsLeast(m, s)
  {
    var y :| y in s;
    if s != {y} {
      var rest := s - {y};
      LeastExists(rest);
      var m :| IsLeast(m, rest);
      BelowTotal(y, m);
      if Below(y, m) {
        forall x | x in s && x != y
          ensures Below(y, x)
        {
          if x != m {
            BelowTransitive(y, m, x);
          }
        }
        assert IsLeast(y, s);
      } else {
        assert IsLeast(m, s);
      }
    } else {
      assert IsLeast(y, s);
    }
  }

  predicate StrictlySorted(r: seq<string>)
  {
    forall i, j :: 0 <= i < j < |r| ==> Below(r[i], r[j])
  }

  /** The elements of a finite set of strings in ascending order, as
      `keySet().stream().sorted()` lists them. */
  function SortedStrings(s: set<string>): (r: seq<string>)
    ensures |r| == |s|
    decreases s
  {
    if s == {} then []
    else
      LeastExists(s);
      LeastUnique(s);
      var m :| IsLeast(m, s);
      [m] + SortedStrings(s - {m})
  }

  /** The listing is strictly ascending and holds exactly the elements of
      the set. */
  lemma {:induction false} SortedStringsListing(s: set<string>)
    ensures StrictlySorted(SortedStrings(s))
    ensures forall x :: x in SortedStrings(s) <==> x in s
    decreases s
  {
    if s != {} {
      LeastExists(s);
      LeastUnique(s);
      var m :| IsLeast(m, s);
      var rest := SortedStrings(s - {m});
      SortedStringsListing(s - {m});
      assert SortedStrings(s) == [m] + rest;
      assert forall j :: 0 <= j < |rest| ==> Below(m, rest[j]);
    }
  }

  /** In a strictly sorted listing no later element equals the head. */
  lemma HeadNotRepeated(a: seq<string>)
    requires StrictlySorted(a) && a != []
    ensures forall j :: 0 < j < |a| ==> a[j] != a[0]
  {
    BelowIrreflexive(a[0]);
  }

  /** Two strictly sorted listings of the same elements are the same listing. */
  lemma {:induction false} SortedListingsEqual(a: seq<string>, b: seq<string>)
    requires StrictlySorted(a) && StrictlySorted(b)
    requires forall x :: x in a <==> x in b
    ensures a == b
    decreases |a|
  {
    assert |b| > 0 ==> b[0] in a;
    if a != [] {
      assert a[0] in b;
      assert b != [];
      assert b[0] in a;
      if Below(a[0], b[0]) {
        BelowAsymmetric(a[0], b[0]);
      }
      assert a[0] == b[0];
      HeadNotRepeated(a);
      HeadNotRepeated(b);
      forall x
        ensures x in a[1..] <==> x in b[1..]
      {
        assert x in a[1..] <==> x in a && x != a[0];
        assert x in b[1..] <==> x in b && x != b[0];
      }
      SortedListingsEqual(a[1..], b[1..]);
      assert a == [a[0]] + a[1..] && b == [b[0]] + b[1..];
    }
  }

  /** Sorted order is determined by the set: every strictly sorted listing of
      `s` is the one SortedStrings gives. */
  lemma SortedStringsUnique(a: seq<string>, s: set<string>)
    requires StrictlySorted(a)
    requires forall x :: x in a <==> x in s
    ensures a == SortedStrings(s)
  {
    SortedStringsListing(s);
    SortedListingsEqual(a, SortedStrings(s));
  }
}
