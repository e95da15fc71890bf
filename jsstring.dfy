/**
 * The two JavaScript string operations the dashboard and the service worker
 * rely on: `String.prototype.trim` and `String.prototype.includes`.
 */
module JsString {

  /** The single code points `trim` removes besides the range U+2000..U+200A. */
  const TrimmableSet: set<char> := {
    '\t', '\n', '\U{000B}', '\U{000C}', '\r', ' ', '\U{00A0}', '\U{1680}',
    '\U{2028}', '\U{2029}', '\U{202F}', '\U{205F}', '\U{3000}', '\U{FEFF}'
  }

  /** The characters `trim` removes: ECMAScript WhiteSpace and LineTerminator code points. */
  predicate IsTrimmable(c: char) {
    c in TrimmableSet || '\U{2000}' <= c <= '\U{200A}'
  }

  predicate AllTrimmable(s: string) {
    forall i :: 0 <= i < |s| ==> IsTrimmable(s[i])
  }

  /** A whitespace character in front of a whitespace-only stretch gives a whitespace-only stretch. */
  lemma {:induction false} LeadingTrimmable(s: string, k: int)
    requires s != [] && IsTrimmable(s[0]) && 0 <= k < |s| && AllTrimmable(s[1..][..k])
    ensures AllTrimmable(s[..k + 1])
  {
    assert s[..k + 1] == [s[0]] + s[1..][..k];
  }

  /** A whitespace character after a whitespace-only stretch gives a whitespace-only stretch. */
  lemma {:induction false} TrailingTrimmable(s: string, k: int)
    requires s != [] && IsTrimmable(s[|s| - 1]) && 0 <= k < |s| && AllTrimmable(s[..|s| - 1][k..])
    ensures AllTrimmable(s[k..])
  {
    assert s[k..] == s[..|s| - 1][k..] + [s[|s| - 1]];
  }

  /** `s` with its leading whitespace removed. */
  function TrimStart(s: string): (r: string)
    ensures |r| <= |s| && r == s[|s| - |r|..]
    ensures AllTrimmable(s[..|s| - |r|])
    ensures r == [] || !IsTrimmable(r[0])
  {
    if s != [] && IsTrimmable(s[0]) then
      var r := TrimStart(s[1..]);
      LeadingTrimmable(s, |s[1..]| - |r|);
      r
    else s
  }

  /** `s` with its trailing whitespace removed. */
  function TrimEnd(s: string): (r: string)
    ensures |r| <= |s| && r == s[..|r|]
    ensures AllTrimmable(s[|r|..])
    ensures r == [] || !IsTrimmable(r[|r| - 1])
  {
    if s != [] && IsTrimmable(s[|s| - 1]) then
      var r := TrimEnd(s[..|s| - 1]);
      TrailingTrimmable(s, |r|);
      r
    else s
  }

  /** `String.prototype.trim`: `s` without leading and trailing whitespace. */
  function Trim(s: string): string {
    TrimEnd(TrimStart(s))
  }

  /**
   * A whitespace-free-ended prefix `r` of a whitespace-free-started suffix
   * `t` of `s`, with only whitespace cut at each step, is a middle part of
   * `s` with only whitespace outside it.
   */
  lemma {:induction false} InnerPart(s: string, t: string, r: string) returns (a: int, b: int)
    requires |t| <= |s| && t == s[|s| - |t|..] && AllTrimmable(s[..|s| - |t|])
    requires t == [] || !IsTrimmable(t[0])
    requires |r| <= |t| && r == t[..|r|] && AllTrimmable(t[|r|..])
    requires r == [] || !IsTrimmable(r[|r| - 1])
    ensures 0 <= a <= b <= |s| && r == s[a..b]
    ensures AllTrimmable(s[..a]) && AllTrimmable(s[b..])
    ensures r == [] || (!IsTrimmable(r[0]) && !IsTrimmable(r[|r| - 1]))
  {
    a := |s| - |t|;
    b := a + |r|;
    assert r == s[a..b];
    assert t[|r|..] == s[b..];
    if r != [] {
      assert r[0] == t[0];
    }
  }

  /**
   * What `trim` keeps is the stretch of `s` between its first and last
   * non-whitespace characters: everything cut off is whitespace, and the
   * result neither starts nor ends with whitespace.
   */
  lemma {:induction false} TrimIsInnerPart(s: string) returns (a: int, b: int)
    ensures 0 <= a <= b <= |s| && Trim(s) == s[a..b]
    ensures AllTrimmable(s[..a]) && AllTrimmable(s[b..])
    ensures Trim(s) == [] || (!IsTrimmable(Trim(s)[0]) && !IsTrimmable(Trim(s)[|Trim(s)| - 1]))
  {
    a, b := InnerPart(s, TrimStart(s), Trim(s));
  }

  /** A string trims to nothing exactly when it is made of whitespace only. */
  lemma {:induction false} TrimEmptyIffBlank(s: string)
    ensures Trim(s) == [] <==> AllTrimmable(s)
  {
    var t := TrimStart(s);
    if Trim(s) == [] {
      assert s == s[..|s| - |t|] + t;
      assert t == t[|TrimEnd(t)|..];
    } else {
      var a, b := TrimIsInnerPart(s);
    }
  }

  /** Trimming twice is trimming once. */
  lemma {:induction false} TrimIdempotent(s: string)
    ensures Trim(Trim(s)) == Trim(s)
  {
    var a, b := TrimIsInnerPart(s);
    var r := Trim(s);
    if r != [] {
      assert TrimStart(r) == r;
      assert TrimEnd(r) == r;
    }
  }

  /** `sub` occurs in `s` starting at index `i`. */
  ghost predicate OccursAt(s: string, sub: string, i: int) {
    0 <= i && i + |sub| <= |s| && s[i..i + |sub|] == sub
  }

  /** `String.prototype.includes`, scanning `s` from the left. */
  function Includes(s: string, sub: string): bool
    decreases |s|
  {
    if |sub| > |s| then false
    else if s[..|sub|] == sub then true
    else Includes(s[1..], sub)
  }

  /** `Includes` answers true exactly when `sub` occurs somewhere in `s`. */
  lemma {:induction false} IncludesIffOccurs(s: string, sub: string)
    ensures Includes(s, sub) <==> exists i :: OccursAt(s, sub, i)
    decreases |s|
  {
    if |sub| > |s| {
      assert forall i :: !OccursAt(s, sub, i);
    } else if s[..|sub|] == sub {
      assert OccursAt(s, sub, 0);
    } else {
      IncludesIffOccurs(s[1..], sub);
      if Includes(s[1..], sub) {
        var i :| OccursAt(s[1..], sub, i);
        assert s[i + 1..i + 1 + |sub|] == s[1..][i..i + |sub|];
        assert OccursAt(s, sub, i + 1);
      } else {
        forall i | OccursAt(s, sub, i) ensures false {
          assert i != 0;
          assert s[1..][i - 1..i - 1 + |sub|] == s[i..i + |sub|];
          assert OccursAt(s[1..], sub, i - 1);
        }
      }
    }
  }
}
