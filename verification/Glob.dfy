// The pattern language of `repository` and `owner` entries: `*` stands for any run of characters,
// `/` included, `?` for exactly one, and every other character for itself.
module Glob {
  import opened Text

  predicate Matches(pattern: string, s: string)
    decreases |pattern| + |s|
  {
    if pattern == "" then s == ""
    else if pattern[0] == '*' then Matches(pattern[1..], s) || (s != "" && Matches(pattern, s[1..]))
    else s != "" && (pattern[0] == '?' || pattern[0] == s[0]) && Matches(pattern[1..], s[1..])
  }

  ghost predicate MatchesAt(p: string, q: string, s: string, k: nat) {
    k <= |s| && Matches(p, s[..k]) && Matches(q, s[k..])
  }

  lemma {:induction false} SplitPatternForward(p: string, q: string, s: string)
    requires Matches(p + q, s)
    ensures exists k: nat :: MatchesAt(p, q, s, k)
    decreases |p| + |s|
  {
    if p == "" {
      assert p + q == q && s[0..] == s;
      assert MatchesAt(p, q, s, 0);
    } else {
      assert (p + q)[1..] == p[1..] + q;
      if p[0] == '*' && Matches(p[1..] + q, s) {
        SplitPatternForward(p[1..], q, s);
        var k: nat :| MatchesAt(p[1..], q, s, k);
        assert MatchesAt(p, q, s, k);
      } else {
        var p' := if p[0] == '*' then p else p[1..];
        SplitPatternForward(p', q, s[1..]);
        var k: nat :| MatchesAt(p', q, s[1..], k);
        assert s[..k + 1][1..] == s[1..][..k] && s[k + 1..] == s[1..][k..];
        assert MatchesAt(p, q, s, k + 1);
      }
    }
  }

  lemma {:induction false} SplitPatternBackward(p: string, q: string, s: string, k: nat)
    requires MatchesAt(p, q, s, k)
    ensures Matches(p + q, s)
    decreases |p| + |s|
  {
    if p == "" {
      assert p + q == q && s[k..] == s;
    } else {
      assert (p + q)[1..] == p[1..] + q;
      if p[0] == '*' && Matches(p[1..], s[..k]) {
        SplitPatternBackward(p[1..], q, s, k);
      } else {
        assert s[..k][1..] == s[1..][..k - 1] && s[k..] == s[1..][k - 1..];
        SplitPatternBackward(if p[0] == '*' then p else p[1..], q, s[1..], k - 1);
      }
    }
  }

  /** A pattern in two halves matches a text exactly when the text splits into two halves that
      the pattern's halves match. */
  lemma SplitPattern(p: string, q: string, s: string)
    ensures Matches(p + q, s) <==> exists k: nat :: MatchesAt(p, q, s, k)
  {
    if Matches(p + q, s) { SplitPatternForward(p, q, s); }
    if k: nat :| MatchesAt(p, q, s, k) { SplitPatternBackward(p, q, s, k); }
  }

  /** A pattern without wildcards matches only itself. */
  lemma {:induction false} LiteralMatches(pattern: string, s: string)
    requires '*' !in pattern && '?' !in pattern
    ensures Matches(pattern, s) <==> s == pattern
  {
    if pattern == "" || s == "" {
    } else {
      LiteralMatches(pattern[1..], s[1..]);
      assert pattern == [pattern[0]] + pattern[1..] && s == [s[0]] + s[1..];
    }
  }

  /** The pattern `?` matches every single character, a slash included, and nothing else. */
  lemma QuestionMarkMatches(s: string)
    ensures Matches("?", s) <==> |s| == 1
  {
  }

  /** The pattern `*` matches every text. */
  lemma {:induction false} StarMatches(s: string)
    ensures Matches("*", s)
  {
    if s == "" {
    } else {
      StarMatches(s[1..]);
    }
  }

  /** `owner-pattern/name-pattern` matches `owner/name` exactly when each half matches its own side,
      although `*` may match a `/`. */
  lemma SlashDecomposition(ownerPattern: string, namePattern: string, owner: string, name: string)
    requires '/' !in owner && '/' !in name
    ensures Matches(ownerPattern + "/" + namePattern, owner + "/" + name)
       <==> Matches(ownerPattern, owner) && Matches(namePattern, name)
  {
    var s := owner + "/" + name;
    SlashSplit(ownerPattern, namePattern, s);
    assert s[..|owner|] == owner && s[|owner| + 1..] == name && s[|owner|] == '/';
    assert forall k :: 0 <= k < |owner| ==> s[k] == owner[k];
    assert forall k :: |owner| < k < |s| ==> s[k] == name[k - |owner| - 1];
    if Matches(ownerPattern + "/" + namePattern, s) {
      var k: nat :| SlashAt(ownerPattern, namePattern, s, k);
      assert k == |owner|;
    }
    if Matches(ownerPattern, owner) && Matches(namePattern, name) {
      assert SlashAt(ownerPattern, namePattern, s, |owner|);
    }
  }

  ghost predicate SlashAt(p: string, q: string, s: string, k: nat) {
    k < |s| && s[k] == '/' && Matches(p, s[..k]) && Matches(q, s[k + 1..])
  }

  /** For any text whatever: a pattern `p/q` matches exactly around one of the text's slashes. */
  lemma SlashSplit(p: string, q: string, s: string)
    ensures Matches(p + "/" + q, s) <==> exists k: nat :: SlashAt(p, q, s, k)
  {
    assert p + "/" + q == p + ("/" + q);
    SplitPattern(p, "/" + q, s);
    assert ("/" + q)[1..] == q;
    forall k: nat ensures MatchesAt(p, "/" + q, s, k) <==> SlashAt(p, q, s, k) {
      if k < |s| { assert s[k..][1..] == s[k + 1..]; }
    }
  }

  /** A literal owner fences the pattern in: whatever the text, the owner that the text is looked up
      under, the part before its first slash, is the pattern's owner. */
  lemma LiteralOwnerFences(owner: string, namePattern: string, s: string)
    requires '*' !in owner && '?' !in owner && '/' !in owner
    requires Matches(owner + "/" + namePattern, s)
    ensures SplitOnce(s, '/').Some? && SplitOnce(s, '/').value.0 == owner
    ensures Matches(namePattern, SplitOnce(s, '/').value.1)
  {
    SlashSplit(owner, namePattern, s);
    var k: nat :| SlashAt(owner, namePattern, s, k);
    LiteralMatches(owner, s[..k]);
    assert s == owner + ['/'] + s[k + 1..];
    SplitOnceUnique(owner, s[k + 1..], '/');
  }
}
