/** The JavaScript string operations the terminal relies on, over ASCII:
    `trim`, `toLowerCase` and `slice`. The functions are plain definitions;
    what they guarantee is proved in the lemmas that follow each of them. */
module Text {

  /** The whitespace that trimming removes (the ASCII part of the set JavaScript's trim uses). */
  predicate IsSpace(c: char) {
    c == ' ' || c == '\t' || c == '\n' || c == '\r' || c == '\U{0B}' || c == '\U{0C}'
  }

  predicate AllSpace(s: string) {
    forall i :: 0 <= i < |s| ==> IsSpace(s[i])
  }

  // ---------------------------------------------------------------------
  // trim
  // ---------------------------------------------------------------------

  /** Drops leading whitespace. */
  function TrimStart(s: string): string {
    if |s| > 0 && IsSpace(s[0]) then TrimStart(s[1..]) else s
  }

  /** Drops trailing whitespace. */
  function TrimEnd(s: string): string {
    if |s| > 0 && IsSpace(s[|s| - 1]) then TrimEnd(s[..|s| - 1]) else s
  }

  /** `String.prototype.trim`. */
  function Trim(s: string): string {
    TrimEnd(TrimStart(s))
  }

  /** `TrimStart` leaves the suffix of `s` that starts at its first
      non-space character: everything before it is whitespace. */
  lemma {:induction false} TrimStartIsSuffix(s: string)
    ensures var r := TrimStart(s);
      && |r| <= |s| && r == s[|s| - |r|..]
      && AllSpace(s[..|s| - |r|])
      && (r == [] || !IsSpace(r[0]))
    decreases |s|
  {
    if |s| > 0 && IsSpace(s[0]) {
      var t := s[1..];
      TrimStartIsSuffix(t);
      var r := TrimStart(t);
      assert TrimStart(s) == r;
      assert t[|t| - |r|..] == s[|s| - |r|..];
      assert s[..|s| - |r|] == [s[0]] + t[..|t| - |r|];
    }
  }

  /** `TrimEnd` leaves the prefix of `s` that ends at its last non-space
      character: everything after it is whitespace. */
  lemma {:induction false} TrimEndIsPrefix(s: string)
    ensures var r := TrimEnd(s);
      && |r| <= |s| && r == s[..|r|]
      && AllSpace(s[|r|..])
      && (r == [] || !IsSpace(r[|r| - 1]))
    decreases |s|
  {
    if |s| > 0 && IsSpace(s[|s| - 1]) {
      var t := s[..|s| - 1];
      TrimEndIsPrefix(t);
      var r := TrimEnd(t);
      assert TrimEnd(s) == r;
      assert t[..|r|] == s[..|r|];
      assert s[|r|..] == t[|r|..] + [s[|s| - 1]];
    }
  }

  /** `Trim` leaves the middle of `s`: whitespace before it, whitespace
      after it, and neither end of it is whitespace. */
  lemma TrimIsMiddle(s: string)
    ensures var r := Trim(s); var k := |s| - |TrimStart(s)|;
      && 0 <= k && k + |r| <= |s| && r == s[k..k + |r|]
      && AllSpace(s[..k]) && AllSpace(s[k + |r|..])
      && (r == [] || (!IsSpace(r[0]) && !IsSpace(r[|r| - 1])))
  {
    var t := TrimStart(s);
    var r := TrimEnd(t);
    var k := |s| - |t|;
    TrimStartIsSuffix(s);
    TrimEndIsPrefix(t);
    assert s[k..k + |r|] == t[..|r|];
    assert s[k + |r|..] == t[|r|..];
  }

  lemma {:induction false} TrimStartSkipsSpace(pre: string, s: string)
    requires AllSpace(pre)
    ensures TrimStart(pre + s) == TrimStart(s)
    decreases |pre|
  {
    if |pre| == 0 {
      assert pre + s == s;
    } else {
      assert (pre + s)[1..] == pre[1..] + s;
      TrimStartSkipsSpace(pre[1..], s);
    }
  }

  lemma {:induction false} TrimEndSkipsSpace(s: string, post: string)
    requires AllSpace(post)
    ensures TrimEnd(s + post) == TrimEnd(s)
    decreases |post|
  {
    if |post| == 0 {
      assert s + post == s;
    } else {
      var whole := s + post;
      assert whole[..|whole| - 1] == s + post[..|post| - 1];
      TrimEndSkipsSpace(s, post[..|post| - 1]);
    }
  }

  lemma {:induction false} TrimIgnoresTrailingSpace(s: string, post: string)
    requires AllSpace(post)
    ensures Trim(s + post) == Trim(s)
    decreases |s|
  {
    if |s| == 0 {
      assert s + post == post + [];
      TrimStartSkipsSpace(post, []);
    } else if IsSpace(s[0]) {
      assert (s + post)[1..] == s[1..] + post;
      TrimIgnoresTrailingSpace(s[1..], post);
    } else {
      TrimEndSkipsSpace(s, post);
    }
  }

  /** Whitespace around a line does not change what trimming leaves. */
  lemma TrimIgnoresSurroundingSpace(pre: string, s: string, post: string)
    requires AllSpace(pre) && AllSpace(post)
    ensures Trim(pre + s + post) == Trim(s)
  {
    assert pre + s + post == pre + (s + post);
    TrimStartSkipsSpace(pre, s + post);
    assert TrimStart(pre + s + post) == TrimStart(s + post);
    TrimIgnoresTrailingSpace(s, post);
  }

  // ---------------------------------------------------------------------
  // toLowerCase
  // ---------------------------------------------------------------------

  /** ASCII lower-casing of one character. */
  function LowerChar(c: char): (r: char)
    ensures IsSpace(r) == IsSpace(c)
    ensures !('A' <= r <= 'Z')
    ensures !('A' <= c <= 'Z') ==> r == c
    ensures 'A' <= c <= 'Z' ==> r as int == c as int + 32
  {
    if 'A' <= c <= 'Z' then (c as int - 'A' as int + 'a' as int) as char else c
  }

  /** `String.prototype.toLowerCase` over ASCII letters. */
  function Lower(s: string): string
    decreases |s|
  {
    if s == [] then [] else [LowerChar(s[0])] + Lower(s[1..])
  }

  /** Lower-casing maps each character on its own and keeps the length. */
  lemma {:induction false} LowerIsPointwise(s: string)
    ensures |Lower(s)| == |s|
    ensures forall i :: 0 <= i < |s| ==> Lower(s)[i] == LowerChar(s[i])
    decreases |s|
  {
    if s != [] {
      LowerIsPointwise(s[1..]);
    }
  }

  /** A string with no upper-case letter is its own lower-case form. */
  lemma LowerKeepsLowerCase(s: string)
    requires forall i :: 0 <= i < |s| ==> !('A' <= s[i] <= 'Z')
    ensures Lower(s) == s
  {
    LowerIsPointwise(s);
  }

  /** Lower-casing twice is lower-casing once. */
  lemma LowerIdempotent(s: string)
    ensures Lower(Lower(s)) == Lower(s)
  {
    LowerIsPointwise(s);
    LowerKeepsLowerCase(Lower(s));
  }

  lemma LowerOfPrefix(s: string, n: nat)
    requires n <= |s|
    ensures |Lower(s)| == |s| && Lower(s[..n]) == Lower(s)[..n]
  {
    LowerIsPointwise(s);
    LowerIsPointwise(s[..n]);
  }

  lemma {:induction false} TrimStartCommutesWithLower(s: string)
    ensures TrimStart(Lower(s)) == Lower(TrimStart(s))
    decreases |s|
  {
    LowerIsPointwise(s);
    if |s| > 0 && IsSpace(s[0]) {
      TrimStartCommutesWithLower(s[1..]);
    }
  }

  lemma {:induction false} TrimEndCommutesWithLower(s: string)
    ensures TrimEnd(Lower(s)) == Lower(TrimEnd(s))
    decreases |s|
  {
    LowerIsPointwise(s);
    if |s| > 0 && IsSpace(s[|s| - 1]) {
      LowerOfPrefix(s, |s| - 1);
      TrimEndCommutesWithLower(s[..|s| - 1]);
    }
  }

  /** Trimming and lower-casing commute. */
  lemma TrimCommutesWithLower(s: string)
    ensures Lower(Trim(s)) == Trim(Lower(s))
  {
    TrimStartCommutesWithLower(s);
    TrimEndCommutesWithLower(TrimStart(s));
  }

  /** A line with no surrounding whitespace and no upper-case letter is left as is. */
  lemma PlainLineIsTrimmedLower(s: string)
    requires s == [] || (!IsSpace(s[0]) && !IsSpace(s[|s| - 1]))
    requires forall i :: 0 <= i < |s| ==> !('A' <= s[i] <= 'Z')
    ensures Lower(Trim(s)) == s
  {
    assert TrimStart(s) == s;
    assert TrimEnd(s) == s;
    LowerKeepsLowerCase(s);
  }

  // ---------------------------------------------------------------------
  // slice
  // ---------------------------------------------------------------------

  /** `String.prototype.slice(k)` for a non-negative `k`: the characters from
      index `k` on, or the empty string when `k` is past the end. */
  function SliceFrom(s: string, k: nat): (r: string)
    ensures |r| == if k <= |s| then |s| - k else 0
    ensures r == s[|s| - |r|..]
  {
    if k <= |s| then s[k..] else ""
  }
}
