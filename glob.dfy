/**
 * Shell-style name matching as done by `fnmatch.fnmatch` on a POSIX system:
 * case-sensitive, the whole name must match, `*` matches any run of
 * characters (empty, and including `/`), `?` matches exactly one character
 * and every other pattern character matches itself.
 */
module Glob {

  /** Pattern characters that are not matched literally. */
  predicate IsPlain(pattern: string)
  {
    forall i :: 0 <= i < |pattern| ==> pattern[i] != '*' && pattern[i] != '?' && pattern[i] != '['
  }

  /** True iff the whole of `name` matches `pattern`. */
  predicate FnMatch(name: string, pattern: string)
    requires '[' !in pattern
    ensures pattern == "*" ==> FnMatch(name, pattern)
    decreases |pattern| + |name|
  {
    if pattern == [] then
      name == []
    else if pattern[0] == '*' then
      FnMatch(name, pattern[1..]) || (name != [] && FnMatch(name[1..], pattern))
    else
      name != [] && (pattern[0] == '?' || name[0] == pattern[0]) && FnMatch(name[1..], pattern[1..])
  }

  /** A pattern that starts with plain text matches a name iff the name starts with that text and its remainder matches the rest. */
  lemma {:induction false} PlainPrefix(name: string, lit: string, rest: string)
    requires IsPlain(lit) && '[' !in rest
    ensures FnMatch(name, lit + rest) <==>
            |lit| <= |name| && name[..|lit|] == lit && FnMatch(name[|lit|..], rest)
    decreases |lit|
  {
    if lit == [] {
      assert lit + rest == rest;
      assert name[0..] == name;
    } else {
      var p := lit + rest;
      assert p[0] == lit[0] && p[1..] == lit[1..] + rest;
      assert IsPlain(lit[1..]);
      if name == [] {
      } else {
        PlainPrefix(name[1..], lit[1..], rest);
        if |lit| <= |name| {
          assert name[1..][|lit| - 1..] == name[|lit|..];
          assert name[..|lit|] == [name[0]] + name[1..][..|lit| - 1];
          assert lit == [lit[0]] + lit[1..];
        }
      }
    }
  }

  /** A leading `*` matches any prefix of the name, including the empty one. */
  lemma {:induction false} StarPrefix(name: string, rest: string)
    requires '[' !in rest
    ensures FnMatch(name, "*" + rest) <==> exists k :: 0 <= k <= |name| && FnMatch(name[k..], rest)
    decreases |name|
  {
    var p := "*" + rest;
    assert p[0] == '*' && p[1..] == rest;
    assert name[0..] == name;
    if name != [] {
      StarPrefix(name[1..], rest);
      if FnMatch(name, p) && !FnMatch(name, rest) {
        var k :| 0 <= k <= |name| - 1 && FnMatch(name[1..][k..], rest);
        assert name[1..][k..] == name[k + 1..];
      }
      if exists k :: 0 <= k <= |name| && FnMatch(name[k..], rest) {
        var k :| 0 <= k <= |name| && FnMatch(name[k..], rest);
        if k > 0 {
          assert name[1..][k - 1..] == name[k..];
        }
      }
    }
  }

  /** A star followed by plain text matches anything, then that text, then a match of the rest. */
  lemma StarThenPlain(x: string, lit: string, y: string, rest: string)
    requires IsPlain(lit) && '[' !in rest
    requires FnMatch(y, rest)
    ensures FnMatch(x + lit + y, "*" + (lit + rest))
  {
    var s := x + lit + y;
    assert s[|x|..] == lit + y;
    PlainPrefix(lit + y, lit, rest);
    assert (lit + y)[..|lit|] == lit && (lit + y)[|lit|..] == y;
    StarPrefix(s, lit + rest);
  }

  /** Conversely, a match of a star and plain text splits the name at some occurrence of that text. */
  lemma SplitAtStar(s: string, lit: string, rest: string) returns (x: string, y: string)
    requires IsPlain(lit) && '[' !in rest
    requires FnMatch(s, "*" + (lit + rest))
    ensures s == x + lit + y && FnMatch(y, rest)
  {
    StarPrefix(s, lit + rest);
    var k :| 0 <= k <= |s| && FnMatch(s[k..], lit + rest);
    PlainPrefix(s[k..], lit, rest);
    x, y := s[..k], s[k..][|lit|..];
    assert s[k..] == lit + y;
    assert s == x + s[k..];
  }
}
