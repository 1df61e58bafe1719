/** The parts of Go's strings and unicode packages that the notifiers use. */
module GoStrings {

  /** unicode.IsSpace: the Latin-1 spaces plus the other Unicode White_Space characters. */
  predicate IsSpace(c: char) {
    || c == '\t' || c == '\n' || c == '\U{000B}' || c == '\U{000C}' || c == '\r' || c == ' '
    || c == '\U{0085}' || c == '\U{00A0}' || c == '\U{1680}'
    || ('\U{2000}' <= c <= '\U{200A}')
    || c == '\U{2028}' || c == '\U{2029}' || c == '\U{202F}' || c == '\U{205F}' || c == '\U{3000}'
  }

  predicate AllSpace(s: string) {
    forall i :: 0 <= i < |s| ==> IsSpace(s[i])
  }

  /** Neither the first nor the last character is white space. */
  predicate Trimmed(s: string) {
    s == "" || (!IsSpace(s[0]) && !IsSpace(s[|s| - 1]))
  }

  function HasPrefix(s: string, prefix: string): bool {
    |prefix| <= |s| && s[..|prefix|] == prefix
  }

  function TrimPrefix(s: string, prefix: string): (r: string)
    ensures HasPrefix(s, prefix) ==> s == prefix + r
    ensures !HasPrefix(s, prefix) ==> r == s
  {
    if HasPrefix(s, prefix) then s[|prefix|..] else s
  }

  /** Drops the leading white space: the result is the suffix that starts at the first non-space. */
  function TrimLeftSpace(s: string): (r: string)
    ensures |r| <= |s| && r == s[|s| - |r|..]
    ensures AllSpace(s[..|s| - |r|])
    ensures r != "" ==> !IsSpace(r[0])
  {
    if s != "" && IsSpace(s[0]) then
      var t := s[1..];
      var r := TrimLeftSpace(t);
      assert r == s[|s| - |r|..] by { assert t[|t| - |r|..] == s[|s| - |r|..]; }
      assert s[..|s| - |r|] == [s[0]] + t[..|t| - |r|];
      r
    else s
  }

  /** Drops the trailing white space: the result is the prefix that ends at the last non-space. */
  function TrimRightSpace(s: string): (r: string)
    ensures |r| <= |s| && r == s[..|r|]
    ensures AllSpace(s[|r|..])
    ensures r != "" ==> !IsSpace(r[|r| - 1])
  {
    if s != "" && IsSpace(s[|s| - 1]) then
      var t := s[..|s| - 1];
      var r := TrimRightSpace(t);
      assert r == s[..|r|] by { assert t[..|r|] == s[..|r|]; }
      assert s[|r|..] == t[|r|..] + [s[|s| - 1]];
      r
    else s
  }

  /** strings.TrimSpace. */
  function TrimSpace(s: string): (r: string)
    ensures Trimmed(r)
  {
    var left := TrimLeftSpace(s);
    var r := TrimRightSpace(left);
    assert r != "" ==> r[0] == left[0];
    r
  }

  /** TrimSpace leaves an already trimmed string alone. */
  lemma TrimSpaceOfTrimmed(s: string)
    requires Trimmed(s)
    ensures TrimSpace(s) == s
  {
  }

  /** TrimSpace of nothing but white space is empty. */
  lemma {:induction false} TrimSpaceOfSpaces(s: string)
    requires AllSpace(s)
    ensures TrimSpace(s) == ""
  {
    TrimLeftOfSpaces(s);
  }

  lemma {:induction false} TrimLeftOfSpaces(s: string)
    requires AllSpace(s)
    ensures TrimLeftSpace(s) == ""
  {
    if s != "" {
      TrimLeftOfSpaces(s[1..]);
    }
  }

  /** TrimSpace removes exactly the white space around a trimmed core. */
  lemma {:induction false} TrimSpaceAround(pre: string, core: string, post: string)
    requires AllSpace(pre) && AllSpace(post) && Trimmed(core) && core != ""
    ensures TrimSpace(pre + core + post) == core
  {
    assert pre + core + post == pre + (core + post);
    TrimLeftAround(pre, core + post);
    TrimRightAround(core, post);
    calc {
      TrimSpace(pre + core + post);
      TrimRightSpace(TrimLeftSpace(pre + (core + post)));
      TrimRightSpace(core + post);
      core;
    }
  }

  lemma {:induction false} TrimLeftAround(pre: string, rest: string)
    requires AllSpace(pre) && rest != "" && !IsSpace(rest[0])
    ensures TrimLeftSpace(pre + rest) == rest
  {
    if pre != "" {
      assert (pre + rest)[1..] == pre[1..] + rest;
      TrimLeftAround(pre[1..], rest);
    }
  }

  lemma {:induction false} TrimRightAround(rest: string, post: string)
    requires AllSpace(post) && rest != "" && !IsSpace(rest[|rest| - 1])
    ensures TrimRightSpace(rest + post) == rest
  {
    if post != "" {
      assert (rest + post)[..|rest + post| - 1] == rest + post[..|post| - 1];
      TrimRightAround(rest, post[..|post| - 1]);
    } else {
      assert rest + post == rest;
    }
  }
}
