/**
 * The string operations the application relies on, with JavaScript's
 * meaning: `includes`, `replace` with a global literal pattern, `trim`, and
 * case mapping restricted to ASCII.
 */
module Text {

  /** `p` occurs in `s` starting at index `i`. */
  predicate OccursAt(s: string, p: string, i: nat) {
    i + |p| <= |s| && s[i..i + |p|] == p
  }

  /** `s.includes(p)`: some index starts an occurrence (an empty `p` occurs everywhere). */
  predicate Contains(s: string, p: string) {
    exists i: nat | i <= |s| :: OccursAt(s, p, i)
  }

  /**
   * `s.replace(/p/g, "")` for a literal, non-empty pattern: the string is
   * scanned from the left, each match is dropped and scanning resumes right
   * after it, so matches never overlap. Only characters of matches are
   * dropped: every character that is not in the pattern is kept as often as
   * it occurs.
   */
  function RemoveAll(s: string, p: string): (r: string)
    requires p != []
    ensures |r| <= |s|
    ensures forall c | c !in p :: multiset(r)[c] == multiset(s)[c]
    decreases |s|
  {
    if |s| < |p| then s
    else if s[..|p|] == p then
      assert s == s[..|p|] + s[|p|..];
      RemoveAll(s[|p|..], p)
    else
      assert s == [s[0]] + s[1..];
      [s[0]] + RemoveAll(s[1..], p)
  }

  /** An occurrence in the tail of `s` is an occurrence in `s`, one place further on, and back. */
  lemma OccursInTail(s: string, p: string, j: nat)
    requires s != []
    ensures OccursAt(s[1..], p, j) <==> OccursAt(s, p, j + 1)
  {
    if j + |p| <= |s| - 1 {
      assert s[1..][j..j + |p|] == s[j + 1..j + 1 + |p|];
    }
  }

  /** No match before `n` in `[c] + t` means no match before `n - 1` in `t`. */
  lemma NoEarlierMatchInTail(c: char, t: string, p: string, n: nat)
    requires 0 < n
    requires forall j: nat | j < n :: !OccursAt([c] + t, p, j)
    ensures forall j: nat | j < n - 1 :: !OccursAt(t, p, j)
  {
    forall j: nat | j < n - 1 ensures !OccursAt(t, p, j) {
      OccursInTail([c] + t, p, j);
      assert ([c] + t)[1..] == t;
    }
  }

  /**
   * The removal keeps a leading piece `a` in which no match starts, and then
   * drops the match that follows it.
   */
  lemma {:induction false} RemoveAllMatchAfter(a: string, p: string, b: string)
    requires p != []
    requires forall j: nat | j < |a| :: !OccursAt(a + p + b, p, j)
    ensures RemoveAll(a + p + b, p) == a + RemoveAll(b, p)
    decreases |a|
  {
    var s := a + p + b;
    if a == [] {
      assert s == p + b && s[..|p|] == p && s[|p|..] == b;
    } else {
      var t := a[1..] + p + b;
      assert s == [a[0]] + t;
      assert !OccursAt(s, p, 0);
      NoEarlierMatchInTail(a[0], t, p, |a|);
      RemoveAllMatchAfter(a[1..], p, b);
      assert s[0] == a[0] && s[1..] == t;
      assert a == [a[0]] + a[1..];
    }
  }

  /**
   * The removal finds the leftmost match first: the text before it is kept
   * as it is, the match is dropped, and the removal resumes right after it.
   */
  lemma RemoveAllFirstMatch(s: string, p: string, i: nat)
    requires p != [] && OccursAt(s, p, i)
    requires forall j: nat | j < i :: !OccursAt(s, p, j)
    ensures RemoveAll(s, p) == s[..i] + RemoveAll(s[i + |p|..], p)
  {
    assert s == s[..i] + p + s[i + |p|..];
    RemoveAllMatchAfter(s[..i], p, s[i + |p|..]);
  }

  /**
   * A leading piece that does not contain the pattern's first character is
   * kept as it is, in front of what the removal makes of the rest.
   */
  lemma {:induction false} RemoveAllKeepsPrefix(t: string, u: string, p: string)
    requires p != [] && p[0] !in t
    ensures RemoveAll(t + u, p) == t + RemoveAll(u, p)
    decreases |t|
  {
    if t == [] {
      assert t + u == u;
    } else {
      var s := t + u;
      assert s[0] == t[0] && s[1..] == t[1..] + u;
      RemoveAllKeepsPrefix(t[1..], u, p);
    }
  }

  /** An occurrence in a piece of `s` is an occurrence in `s`, shifted by where the piece starts. */
  lemma OccursInInfix(s: string, p: string, k: nat, n: nat, i: nat)
    requires k + n <= |s| && OccursAt(s[k..k + n], p, i)
    ensures OccursAt(s, p, k + i)
  {
    var r := s[k..k + n];
    var here, there := r[i..i + |p|], s[k + i..k + i + |p|];
    forall j | 0 <= j < |p| ensures here[j] == there[j] {
      assert r[i + j] == s[k + i + j];
    }
    assert here == there;
  }

  /** A pattern that occurs in a piece of a string occurs in the string. */
  lemma InfixContains(s: string, p: string, k: nat, n: nat)
    requires k + n <= |s|
    ensures Contains(s[k..k + n], p) ==> Contains(s, p)
  {
    if Contains(s[k..k + n], p) {
      var i: nat :| i <= n && OccursAt(s[k..k + n], p, i);
      OccursInInfix(s, p, k, n, i);
    }
  }

  /** Removing a pattern that does not occur leaves the string as it is. */
  lemma {:induction false} RemoveAllAbsent(s: string, p: string)
    requires p != [] && !Contains(s, p)
    ensures RemoveAll(s, p) == s
    decreases |s|
  {
    if |s| < |p| {
    } else if s[..|p|] == p {
      assert OccursAt(s, p, 0);
    } else {
      InfixContains(s, p, 1, |s| - 1);
      assert s[1..1 + (|s| - 1)] == s[1..];
      RemoveAllAbsent(s[1..], p);
    }
  }

  /** The code fence the generation route strips. */
  const Fence := "```"

  /** After removing fences, a leading backtick can only come from a leading backtick. */
  lemma {:induction false} FenceFreeHead(s: string)
    requires RemoveAll(s, Fence) != [] && RemoveAll(s, Fence)[0] == '`'
    ensures s != [] && s[0] == '`'
    decreases |s|
  {
    if |s| < 3 {
    } else if s[..3] == Fence {
    } else {
    }
  }

  /** After removing fences, two leading backticks can only come from two leading backticks. */
  lemma {:induction false} FenceFreeHead2(s: string)
    requires |RemoveAll(s, Fence)| >= 2
    requires RemoveAll(s, Fence)[0] == '`' && RemoveAll(s, Fence)[1] == '`'
    ensures |s| >= 2 && s[0] == '`' && s[1] == '`'
    decreases |s|
  {
    if |s| < 3 {
    } else if s[..3] == Fence {
      assert s[0] == Fence[0] && s[1] == Fence[1];
    } else {
      FenceFreeHead(s[1..]);
    }
  }

  /** A fence at the front of `[c] + t` is `c` followed by two backticks at the front of `t`. */
  lemma FenceAtFront(c: char, t: string)
    ensures OccursAt([c] + t, Fence, 0) ==> c == '`' && |t| >= 2 && t[0] == '`' && t[1] == '`'
  {
    var r := [c] + t;
    if OccursAt(r, Fence, 0) {
      assert r[0] == r[..3][0] && r[1] == r[..3][1] && r[2] == r[..3][2];
    }
  }

  /** Putting one character in front of a fence-free string makes a fence only with two backticks behind it. */
  lemma ConsFence(c: char, t: string)
    ensures Contains([c] + t, Fence) ==>
      Contains(t, Fence) || (c == '`' && |t| >= 2 && t[0] == '`' && t[1] == '`')
  {
    var r := [c] + t;
    if Contains(r, Fence) {
      var i: nat :| i <= |r| && OccursAt(r, Fence, i);
      if i == 0 {
        FenceAtFront(c, t);
      } else {
        assert r[i..i + 3] == t[i - 1..i + 2];
        assert OccursAt(t, Fence, i - 1);
      }
    }
  }

  /**
   * Removing every fence leaves no fence behind: removal never joins the
   * backticks on either side of a match into a new fence, because a match is
   * taken as soon as its first backtick is reached.
   */
  lemma {:induction false} RemoveFencesLeavesNone(s: string)
    ensures !Contains(RemoveAll(s, Fence), Fence)
    decreases |s|
  {
    if |s| < 3 {
      assert forall i: nat :: !OccursAt(s, Fence, i);
    } else if s[..3] == Fence {
      RemoveFencesLeavesNone(s[3..]);
    } else {
      var t := RemoveAll(s[1..], Fence);
      RemoveFencesLeavesNone(s[1..]);
      if s[0] == '`' && |t| >= 2 && t[0] == '`' && t[1] == '`' {
        FenceFreeHead2(s[1..]);
      }
      ConsFence(s[0], t);
    }
  }

  /**
   * The white space and line terminators that ECMAScript's
   * `String.prototype.trim` removes: TAB, VT, FF, ZWNBSP, the space
   * separators (category Zs) of Unicode, LF, CR, LS and PS.
   */
  const JsWhitespace: set<int> := {
    0x09, 0x0B, 0x0C, 0xFEFF, 0x20, 0xA0, 0x1680,
    0x2000, 0x2001, 0x2002, 0x2003, 0x2004, 0x2005, 0x2006, 0x2007, 0x2008, 0x2009, 0x200A,
    0x202F, 0x205F, 0x3000, 0x0A, 0x0D, 0x2028, 0x2029
  }

  predicate IsJsWhitespace(c: char) {
    c as int in JsWhitespace
  }

  /** Every character of `s` is white space. */
  predicate AllWhitespace(s: string) {
    forall i | 0 <= i < |s| :: IsJsWhitespace(s[i])
  }

  /** `s.trimStart()`: the suffix left after dropping the leading white space. */
  function TrimStart(s: string): (r: string)
    ensures |r| <= |s| && r == s[|s| - |r|..]
    ensures AllWhitespace(s[..|s| - |r|])
    ensures r == [] || !IsJsWhitespace(r[0])
  {
    if s != [] && IsJsWhitespace(s[0]) then
      var r := TrimStart(s[1..]);
      assert s[1..][..|s| - 1 - |r|] == s[1..|s| - |r|];
      r
    else s
  }

  /** `s.trimEnd()`: the prefix left after dropping the trailing white space. */
  function TrimEnd(s: string): (r: string)
    ensures |r| <= |s| && r == s[..|r|]
    ensures AllWhitespace(s[|r|..])
    ensures r == [] || !IsJsWhitespace(r[|r| - 1])
  {
    if s != [] && IsJsWhitespace(s[|s| - 1]) then
      var r := TrimEnd(s[..|s| - 1]);
      assert s[|r|..] == s[..|s| - 1][|r|..] + [s[|s| - 1]];
      r
    else s
  }

  /**
   * `r` is the part of `s` that starts at offset `k`, and what lies before
   * and after it in `s` is white space.
   */
  predicate StrippedAt(r: string, s: string, k: nat) {
    && k + |r| <= |s| && s[k..k + |r|] == r
    && AllWhitespace(s[..k]) && AllWhitespace(s[k + |r|..])
  }

  /** Where the trimmed string starts: after the leading white space. */
  function TrimOffset(s: string): nat {
    |s| - |TrimStart(s)|
  }

  /** Stripping a prefix of `s` at `k`, and then a prefix of the rest at `|r|`, strips `s` at `k`. */
  lemma StripTwice(s: string, k: nat, t: string, r: string)
    requires k <= |s| && t == s[k..] && AllWhitespace(s[..k])
    requires |r| <= |t| && r == t[..|r|] && AllWhitespace(t[|r|..])
    ensures StrippedAt(r, s, k)
  {
    assert s[k..k + |r|] == t[..|r|];
    assert s[k + |r|..] == t[|r|..];
  }

  /** Trimming the start and then the end strips white space from both ends only. */
  lemma TrimBothEnds(s: string)
    ensures StrippedAt(TrimEnd(TrimStart(s)), s, |s| - |TrimStart(s)|)
  {
    var t := TrimStart(s);
    StripTwice(s, |s| - |t|, t, TrimEnd(t));
  }

  /**
   * `s.trim()`: `s` without its leading and trailing white space; what is
   * left neither starts nor ends with white space.
   */
  function Trim(s: string): (r: string)
    ensures StrippedAt(r, s, TrimOffset(s))
    ensures r == [] || (!IsJsWhitespace(r[0]) && !IsJsWhitespace(r[|r| - 1]))
  {
    TrimBothEnds(s);
    TrimEnd(TrimStart(s))
  }

  /** Trimming a trimmed string changes nothing. */
  lemma TrimIdempotent(s: string)
    ensures Trim(Trim(s)) == Trim(s)
  {
  }

  /** `c.toLowerCase()` restricted to ASCII: A-Z map to a-z, everything else is kept. */
  function LowerChar(c: char): char {
    if 'A' <= c <= 'Z' then (c as int + 32) as char else c
  }

  /** `c.toUpperCase()` restricted to ASCII. */
  function UpperChar(c: char): char {
    if 'a' <= c <= 'z' then (c as int - 32) as char else c
  }

  /** `s.toLowerCase()` restricted to ASCII. */
  function Lower(s: string): (r: string)
    ensures |r| == |s| && forall i | 0 <= i < |s| :: r[i] == LowerChar(s[i])
  {
    seq(|s|, i requires 0 <= i < |s| => LowerChar(s[i]))
  }

  /** `s.toUpperCase()` restricted to ASCII. */
  function Upper(s: string): (r: string)
    ensures |r| == |s| && forall i | 0 <= i < |s| :: r[i] == UpperChar(s[i])
  {
    seq(|s|, i requires 0 <= i < |s| => UpperChar(s[i]))
  }
}
