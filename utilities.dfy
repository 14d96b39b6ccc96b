/**
 * The string helpers of the utilities package: a suffix test, the language
 * check and list-based set operations on slices of strings. Slices are
 * sequences with value semantics; order and duplicates of the inputs are
 * kept exactly as the loops keep them.
 */
module Utilities {

  /** The language list of `CheckIfLangIsSupported`. */
  const SupportedLanguages: seq<string> :=
    ["go", "cpp", "csharp", "java", "python", "ruby", "pyi", "php", "objc", "kotlin", "node", "dart"]

  // ---------------------------------------------------------------------
  // Suffix test

  /** `strings.HasSuffix(name, extension)`. */
  function CheckForFileExtension(name: string, extension: string): (r: bool)
    ensures extension == "" ==> r
    ensures r <==> |extension| <= |name| && name == name[..|name| - |extension|] + extension
  {
    |name| >= |extension| && name[|name| - |extension|..] == extension
  }

  /** Any name built as a stem followed by the extension passes the test. */
  lemma ExtensionOfConcatenation(stem: string, extension: string)
    ensures CheckForFileExtension(stem + extension, extension)
  {
    assert (stem + extension)[..|stem|] == stem;
  }

  // ---------------------------------------------------------------------
  // Language check

  /**
   * The language check as the code has it: the loop body returns on the
   * first iteration, so only the first listed language is accepted.
   */
  method CheckIfLangIsSupported(lang: string) returns (r: bool)
    ensures r <==> lang == SupportedLanguages[0]
    ensures r <==> lang == "go"
  {
    var supported := SupportedLanguages;
    for i := 0 to |supported|
      invariant i == 0
    {
      return supported[i] == lang;
    }
    return false;
  }

  /** A listed language that the check above turns down. */
  method CheckIfLangIsSupportedOnCpp() returns (accepted: bool)
    ensures "cpp" in SupportedLanguages
    ensures !accepted
  {
    accepted := CheckIfLangIsSupported("cpp");
    assert SupportedLanguages[1] == "cpp";
  }

  /** The evidently intended language check: membership in the list. */
  method IsLangSupported(lang: string) returns (r: bool)
    ensures r <==> lang in SupportedLanguages
  {
    var supported := SupportedLanguages;
    for i := 0 to |supported|
      invariant forall j :: 0 <= j < i ==> supported[j] != lang
    {
      if supported[i] == lang {
        return true;
      }
    }
    return false;
  }

  // ---------------------------------------------------------------------
  // Membership

  /** `StringInSlice(a, list)`: linear search with early return. */
  method StringInSlice(a: string, list: seq<string>) returns (r: bool)
    ensures r <==> a in list
  {
    for i := 0 to |list|
      invariant a !in list[..i]
    {
      if list[i] == a {
        return true;
      }
    }
    return false;
  }

  /** `Contains(a, x)`: the same search with the arguments the other way round. */
  method Contains(a: seq<string>, x: string) returns (r: bool)
    ensures r <==> x in a
  {
    for i := 0 to |a|
      invariant forall j :: 0 <= j < i ==> a[j] != x
    {
      if x == a[i] {
        return true;
      }
    }
    return false;
  }

  /** The two searches always give the same answer. */
  method SearchesAgree(a: seq<string>, x: string) returns (inSlice: bool, contained: bool)
    ensures inSlice == contained
  {
    inSlice := StringInSlice(x, a);
    contained := Contains(a, x);
  }

  // ---------------------------------------------------------------------
  // Filtering one list by membership in another

  /**
   * The elements of `a`, in order and with their repetitions, whose
   * membership in `b` is `inB`. `Select(a, b, false)` is what `Difference`
   * computes and `Select(a, b, true)` what `Intersection` computes.
   */
  function Select(a: seq<string>, b: seq<string>, inB: bool): seq<string>
  {
    if a == [] then []
    else
      var x := a[|a| - 1];
      Select(a[..|a| - 1], b, inB) + (if (x in b) == inB then [x] else [])
  }

  lemma {:induction false} SelectMembership(a: seq<string>, b: seq<string>, inB: bool, x: string)
    ensures x in Select(a, b, inB) <==> x in a && (x in b) == inB
  {
    if a != [] {
      SelectMembership(a[..|a| - 1], b, inB, x);
      assert a == a[..|a| - 1] + [a[|a| - 1]];
    }
  }

  /** Each kept element keeps all its occurrences; the others have none. */
  lemma {:induction false} SelectCount(a: seq<string>, b: seq<string>, inB: bool, x: string)
    ensures multiset(Select(a, b, inB))[x] == if (x in b) == inB then multiset(a)[x] else 0
  {
    if a != [] {
      SelectCount(a[..|a| - 1], b, inB, x);
      assert a == a[..|a| - 1] + [a[|a| - 1]];
    }
  }

  /** Filtering distributes over concatenation, so relative order is kept. */
  lemma {:induction false} SelectConcat(a1: seq<string>, a2: seq<string>, b: seq<string>, inB: bool)
    ensures Select(a1 + a2, b, inB) == Select(a1, b, inB) + Select(a2, b, inB)
    decreases |a2|
  {
    if a2 == [] {
      assert a1 + a2 == a1;
    } else {
      var init := a2[..|a2| - 1];
      SelectConcat(a1, init, b, inB);
      assert (a1 + a2)[..|a1 + a2| - 1] == a1 + init;
    }
  }

  /** The two filters split `a`: |Intersection(a, b)| + |Difference(a, b)| == |a|. */
  lemma {:induction false} SelectPartition(a: seq<string>, b: seq<string>)
    ensures |Select(a, b, true)| + |Select(a, b, false)| == |a|
  {
    if a != [] {
      SelectPartition(a[..|a| - 1], b);
    }
  }

  /** Filtering looks at `b` only through membership of `a`'s elements. */
  lemma {:induction false} SelectCongruent(a: seq<string>, b: seq<string>, c: seq<string>, inB: bool)
    requires forall x :: x in a ==> (x in b <==> x in c)
    ensures Select(a, b, inB) == Select(a, c, inB)
  {
    if a != [] {
      SelectCongruent(a[..|a| - 1], b, c, inB);
    }
  }

  /** Builds the key set of `b` first, then keeps the elements of `a` outside it. */
  method Difference(a: seq<string>, b: seq<string>) returns (ab: seq<string>)
    ensures ab == Select(a, b, false)
  {
    var mb: map<string, bool> := map[];
    for i := 0 to |b|
      invariant forall x :: x in mb <==> x in b[..i]
    {
      mb := mb[b[i] := true];
    }
    assert b[..|b|] == b;
    ab := [];
    for i := 0 to |a|
      invariant ab == Select(a[..i], b, false)
    {
      if a[i] !in mb {
        ab := ab + [a[i]];
      }
      assert a[..i + 1][..i] == a[..i];
    }
    assert a[..|a|] == a;
  }

  /** Builds the key set of `b` first, then keeps the elements of `a` inside it. */
  method Intersection(a: seq<string>, b: seq<string>) returns (ab: seq<string>)
    ensures ab == Select(a, b, true)
  {
    var mb: map<string, bool> := map[];
    for i := 0 to |b|
      invariant forall x :: x in mb <==> x in b[..i]
    {
      mb := mb[b[i] := true];
    }
    assert b[..|b|] == b;
    ab := [];
    for i := 0 to |a|
      invariant ab == Select(a[..i], b, true)
    {
      if a[i] in mb {
        ab := ab + [a[i]];
      }
      assert a[..i + 1][..i] == a[..i];
    }
    assert a[..|a|] == a;
  }

  // ---------------------------------------------------------------------
  // Set operations composed from the filters

  /** `a` followed by the elements of `b` that are not in `a`. */
  function Union(a: seq<string>, b: seq<string>): (r: seq<string>)
    ensures |a| <= |r| && r[..|a|] == a
    ensures forall x :: x in r <==> x in a || x in b
  {
    var extra := Select(b, a, false);
    assert forall x :: x in extra <==> x in b && x !in a by {
      forall x ensures x in extra <==> x in b && x !in a {
        SelectMembership(b, a, false, x);
      }
    }
    a + extra
  }

  /** The elements of each list that the other list lacks, `a`'s first. */
  function SymmetricDifference(a: seq<string>, b: seq<string>): (r: seq<string>)
    ensures forall x :: x in r <==> (x in a) != (x in b)
  {
    var left := Select(a, b, false);
    var right := Select(b, a, false);
    assert forall x :: x in left + right <==> (x in a) != (x in b) by {
      forall x ensures x in left + right <==> (x in a) != (x in b) {
        SelectMembership(a, b, false, x);
        SelectMembership(b, a, false, x);
      }
    }
    left + right
  }

  /** `Difference(a, Intersection(a, b))`, which is just `Difference(a, b)`. */
  function RelativeComplement(a: seq<string>, b: seq<string>): (r: seq<string>)
    ensures r == Select(a, b, false)
  {
    var common := Select(a, b, true);
    assert forall x :: x in a ==> (x in common <==> x in b) by {
      forall x | x in a ensures x in common <==> x in b {
        SelectMembership(a, b, true, x);
      }
    }
    SelectCongruent(a, common, b, false);
    Select(a, common, false)
  }
}
