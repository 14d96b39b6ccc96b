/**
 * Slash-separated paths as plain strings.
 *
 * `Join` is the two-argument path join the program uses (`filepath.Join`):
 * empty components are skipped and the rest are glued with "/". The
 * lexical clean-up of "." and ".." is not modelled. `Split` is
 * `strings.Split(s, "/")`.
 */
module Paths {

  function Join(a: string, b: string): string
  {
    if a == "" then b else if b == "" then a else a + "/" + b
  }

  /** Join of a list of components, left to right (`filepath.Join(parts...)`). */
  function JoinAll(parts: seq<string>): string
  {
    if parts == [] then "" else Join(JoinAll(parts[..|parts| - 1]), parts[|parts| - 1])
  }

  /** `strings.Split(s, "/")`: the pieces between separators; "" splits to [""]. */
  function Split(s: string): (parts: seq<string>)
    ensures |parts| >= 1
    decreases |s|
  {
    if s == "" then [""]
    else if s[|s| - 1] == '/' then Split(s[..|s| - 1]) + [""]
    else
      var init := Split(s[..|s| - 1]);
      init[..|init| - 1] + [init[|init| - 1] + [s[|s| - 1]]]
  }

  /** A path component: what a single directory or file name looks like. */
  predicate IsComponent(name: string)
  {
    name != "" && '/' !in name
  }

  /** The left operand of a join is a prefix of the result. */
  lemma JoinExtends(a: string, b: string)
    ensures a <= Join(a, b)
  {
  }

  /** Joining a fixed base onto a prefix gives a prefix. */
  lemma JoinMonotone(base: string, x: string, y: string)
    requires x <= y
    ensures Join(base, x) <= Join(base, y)
  {
    if x != "" && x != y {
      assert base + "/" + y == (base + "/" + x) + y[|x|..];
    }
  }

  /** A name without separators splits into itself. */
  lemma {:induction false} SplitComponent(name: string)
    requires '/' !in name
    ensures Split(name) == [name]
    decreases |name|
  {
    if name != "" {
      var init := name[..|name| - 1];
      SplitComponent(init);
      assert init + [name[|name| - 1]] == name;
    }
  }

  /** Appending "/" and a separator-free name appends exactly one piece. */
  lemma {:induction false} SplitAppend(s: string, name: string)
    requires '/' !in name
    ensures Split(s + "/" + name) == Split(s) + [name]
    decreases |name|
  {
    var t := s + "/" + name;
    if name == "" {
      assert t[..|t| - 1] == s;
    } else {
      var init := name[..|name| - 1];
      SplitAppend(s, init);
      assert t[..|t| - 1] == s + "/" + init;
      assert init + [name[|name| - 1]] == name;
    }
  }
}
