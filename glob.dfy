/**
 * The shell-style pattern test used to filter identifiers and to match URIs against learned
 * shapes (`fnmatch`): `*` matches any text, `?` any one character, every other character itself.
 */
module Glob {

  predicate Matches(name: string, pattern: string)
    decreases |pattern| + |name|
  {
    if pattern == "" then name == ""
    else if pattern[0] == '*' then
      Matches(name, pattern[1..]) || (name != "" && Matches(name[1..], pattern))
    else
      name != "" && (pattern[0] == '?' || pattern[0] == name[0]) && Matches(name[1..], pattern[1..])
  }

  /** The default collection pattern `*` lets every identifier through. */
  lemma {:induction false} StarMatchesAll(name: string)
    ensures Matches(name, "*")
  {
    assert "*"[1..] == "";
    if name != "" {
      StarMatchesAll(name[1..]);
    }
  }

  predicate Literal(pattern: string)
  {
    forall k :: 0 <= k < |pattern| ==> pattern[k] != '*' && pattern[k] != '?'
  }

  /** A pattern without wildcards matches exactly itself. */
  lemma {:induction false} LiteralMatchesItself(name: string, pattern: string)
    requires Literal(pattern)
    ensures Matches(name, pattern) <==> name == pattern
    decreases |pattern|
  {
    if pattern != "" {
      assert Literal(pattern[1..]);
      if name != "" {
        LiteralMatchesItself(name[1..], pattern[1..]);
        assert name == [name[0]] + name[1..];
        assert pattern == [pattern[0]] + pattern[1..];
      }
    }
  }

  /** A `P*` pattern keeps exactly the names that start with `P`. */
  lemma {:induction false} PrefixStar(name: string, prefix: string)
    requires Literal(prefix)
    ensures Matches(name, prefix + "*") <==> |prefix| <= |name| && name[..|prefix|] == prefix
    decreases |prefix|
  {
    if prefix == "" {
      assert prefix + "*" == "*";
      StarMatchesAll(name);
    } else {
      assert (prefix + "*")[0] == prefix[0];
      assert (prefix + "*")[1..] == prefix[1..] + "*";
      assert Literal(prefix[1..]);
      if name != "" {
        PrefixStar(name[1..], prefix[1..]);
        if |prefix| <= |name| {
          assert name[..|prefix|] == [name[0]] + name[1..][..|prefix| - 1];
          assert prefix == [prefix[0]] + prefix[1..];
        }
      }
    }
  }
}
