// The string operations of the Rust standard library that the program relies on: splitting at
// a character, trimming, joining, and decimal printing.
module Text {
  import opened Wrappers

  /** Position of the first `c` in `s`, or `|s|` when there is none. */
  function IndexOf(s: string, c: char): (i: nat)
    ensures i <= |s|
    ensures c !in s[..i]
    ensures i < |s| ==> s[i] == c
    ensures c in s <==> i < |s|
  {
    if s == "" || s[0] == c then 0
    else
      var rest := IndexOf(s[1..], c);
      assert s[..rest + 1] == [s[0]] + s[1..][..rest];
      rest + 1
  }

  /** `str::split_once`: the text before and after the first `c`. */
  function SplitOnce(s: string, c: char): (r: Option<(string, string)>)
    ensures r.Some? <==> c in s
    ensures r.Some? ==> s == r.value.0 + [c] + r.value.1 && c !in r.value.0
  {
    var i := IndexOf(s, c);
    if i < |s| then Some((s[..i], s[i + 1..])) else None
  }

  /** A text has only one decomposition around its first `c`. */
  lemma SplitOnceUnique(a: string, b: string, c: char)
    requires c !in a
    ensures SplitOnce(a + [c] + b, c) == Some((a, b))
  {
    var s := a + [c] + b;
    var i := IndexOf(s, c);
    assert s[|a|] == c;
    assert forall k :: 0 <= k < |a| ==> s[k] == a[k];
    assert forall k :: 0 <= k < i ==> s[k] == s[..i][k];
    assert i == |a|;
    assert s[..i] == a && s[i + 1..] == b;
  }

  /** Two texts that agree around a first `c` agree on both sides of it. */
  lemma SplitInjective(a: string, b: string, a': string, b': string, c: char)
    requires c !in a && c !in a'
    requires a + [c] + b == a' + [c] + b'
    ensures a == a' && b == b'
  {
    SplitOnceUnique(a, b, c);
    SplitOnceUnique(a', b', c);
  }

  /** `str::split`: the pieces between the occurrences of `c`; always at least one. */
  function Split(s: string, c: char): (parts: seq<string>)
    ensures parts != []
    ensures forall part :: part in parts ==> c !in part
    decreases |s|
  {
    var i := IndexOf(s, c);
    if i < |s| then [s[..i]] + Split(s[i + 1..], c) else [s]
  }

  /** `[String]::join` with a one-character separator. */
  function Join(parts: seq<string>, c: char): string {
    if parts == [] then ""
    else if |parts| == 1 then parts[0]
    else parts[0] + [c] + Join(parts[1..], c)
  }

  /** A first piece without the separator splits off. */
  lemma SplitFirst(x: string, rest: string, c: char)
    requires c !in x
    ensures Split(x + [c] + rest, c) == [x] + Split(rest, c)
  {
    SplitOnceUnique(x, rest, c);
  }

  lemma JoinFirst(x: string, rest: seq<string>, c: char)
    requires rest != []
    ensures Join([x] + rest, c) == x + [c] + Join(rest, c)
  {
    assert ([x] + rest)[1..] == rest;
  }

  /** Splitting undoes joining when no piece contains the separator. */
  lemma {:induction false} SplitJoin(parts: seq<string>, c: char)
    requires parts != []
    requires forall part :: part in parts ==> c !in part
    ensures Split(Join(parts, c), c) == parts
  {
    if |parts| == 1 {
    } else {
      var first, rest := parts[0], parts[1..];
      assert parts == [first] + rest;
      SplitJoin(rest, c);
      JoinFirst(first, rest, c);
      SplitFirst(first, Join(rest, c), c);
    }
  }

  lemma SplitThree(x: string, y: string, z: string, c: char)
    requires c !in x && c !in y && c !in z
    ensures Split(x + [c] + y + [c] + z, c) == [x, y, z]
  {
    var rest := y + [c] + z;
    assert x + [c] + y + [c] + z == x + [c] + rest;
    SplitFirst(x, rest, c);
    SplitFirst(y, z, c);
    assert Split(z, c) == [z];
  }

  /** Joining undoes splitting. */
  lemma {:induction false} JoinSplit(s: string, c: char)
    ensures Join(Split(s, c), c) == s
    decreases |s|
  {
    var i := IndexOf(s, c);
    if i == |s| {
    } else {
      JoinSplit(s[i + 1..], c);
      JoinFirst(s[..i], Split(s[i + 1..], c), c);
      AroundAt(s, i);
    }
  }

  lemma AroundAt(s: string, i: nat)
    requires i < |s|
    ensures s == s[..i] + [s[i]] + s[i + 1..]
  {
  }

  /** Joining a longer list is joining the two halves around one more separator. */
  lemma {:induction false} JoinAppend(front: seq<string>, back: seq<string>, c: char)
    requires front != [] && back != []
    ensures Join(front + back, c) == Join(front, c) + [c] + Join(back, c)
  {
    var first, rest := front[0], front[1..];
    if |front| == 1 {
      assert front + back == [first] + back;
      JoinFirst(first, back, c);
    } else {
      JoinAppend(rest, back, c);
      assert front + back == [first] + (rest + back) && front == [first] + rest;
      JoinFirst(first, rest + back, c);
      JoinFirst(first, rest, c);
      Regroup(first, [c], Join(rest, c), [c], Join(back, c));
    }
  }

  lemma Regroup(u: string, v: string, w: string, x: string, y: string)
    ensures u + v + (w + x + y) == (u + v + w) + x + y
  {
  }

  /** `str::trim_start_matches` with a character. */
  function TrimStart(s: string, c: char): (r: string)
    ensures r == "" || r[0] != c
    ensures EndsWith(s, r) && forall i :: 0 <= i < |s| - |r| ==> s[i] == c
  {
    if s != "" && s[0] == c then TrimStart(s[1..], c) else s
  }

  /** `str::trim_end_matches` with a character. */
  function TrimEnd(s: string, c: char): (r: string)
    ensures r == "" || r[|r| - 1] != c
    ensures r <= s && forall i :: |r| <= i < |s| ==> s[i] == c
  {
    if s != "" && s[|s| - 1] == c then TrimEnd(s[..|s| - 1], c) else s
  }

  predicate EndsWith(s: string, suffix: string) {
    |suffix| <= |s| && s[|s| - |suffix|..] == suffix
  }

  lemma EndsWithMeaning(s: string, suffix: string)
    ensures EndsWith(s, suffix) <==> exists front :: s == front + suffix
  {
    if EndsWith(s, suffix) { assert s == s[..|s| - |suffix|] + suffix; }
  }

  /** `str::contains` with a text. */
  predicate ContainsText(s: string, part: string) {
    part <= s || (s != "" && ContainsText(s[1..], part))
  }

  lemma {:induction false} ContainsTextMeaning(s: string, part: string)
    ensures ContainsText(s, part) <==> exists before, after :: s == before + part + after
  {
    if part <= s {
      assert s == "" + part + s[|part|..];
    } else if s != "" {
      ContainsTextMeaning(s[1..], part);
      if before, after :| s[1..] == before + part + after {
        assert s == ([s[0]] + before) + part + after;
      }
      if before, after :| s == before + part + after {
        assert before != "" by { assert before == "" ==> s == part + after; }
        assert s[1..] == before[1..] + part + after;
      }
    }
  }

  /** Rust's order of texts: by their first difference. */
  predicate LexLess(a: string, b: string) {
    b != "" && (a == "" || a[0] < b[0] || (a[0] == b[0] && LexLess(a[1..], b[1..])))
  }

  lemma {:induction false} LexTotal(a: string, b: string)
    ensures a == b || LexLess(a, b) || LexLess(b, a)
    ensures !(LexLess(a, b) && LexLess(b, a))
  {
    if a == "" || b == "" {
    } else {
      LexTotal(a[1..], b[1..]);
      assert a == [a[0]] + a[1..] && b == [b[0]] + b[1..];
    }
  }

  lemma {:induction false} LexTransitive(a: string, b: string, c: string)
    requires LexLess(a, b) && LexLess(b, c)
    ensures LexLess(a, c)
  {
    if a == "" {
    } else if a[0] == b[0] && b[0] == c[0] {
      LexTransitive(a[1..], b[1..], c[1..]);
    }
  }

  /** The texts agree up to a position where the first has the smaller character, or has ended. */
  ghost predicate DifferAt(a: string, b: string, i: nat) {
    i <= |a| && i < |b| && a[..i] == b[..i] && (i == |a| || a[i] < b[i])
  }

  lemma {:induction false} LexLessMeaning(a: string, b: string)
    ensures LexLess(a, b) <==> exists i: nat :: DifferAt(a, b, i)
  {
    if a == "" || b == "" {
      assert b != "" ==> DifferAt(a, b, 0);
    } else {
      LexLessMeaning(a[1..], b[1..]);
      if LexLess(a, b) {
        if a[0] < b[0] {
          assert DifferAt(a, b, 0);
        } else {
          var i: nat :| DifferAt(a[1..], b[1..], i);
          assert a[..i + 1] == [a[0]] + a[1..][..i] && b[..i + 1] == [b[0]] + b[1..][..i];
          assert DifferAt(a, b, i + 1);
        }
      }
      if i: nat :| DifferAt(a, b, i) {
        if i > 0 {
          assert a[0] == a[..i][0] == b[..i][0] == b[0];
          assert a[1..][..i - 1] == a[..i][1..] && b[1..][..i - 1] == b[..i][1..];
          assert DifferAt(a[1..], b[1..], i - 1);
        }
      }
    }
  }

  predicate IsLeast(least: string, texts: set<string>) {
    least in texts && forall other | other in texts :: other == least || LexLess(least, other)
  }

  lemma {:induction false} LeastExists(texts: set<string>)
    requires texts != {}
    ensures exists least :: IsLeast(least, texts)
    decreases |texts|
  {
    var some :| some in texts;
    var rest := texts - {some};
    if rest == {} {
      assert texts == {some};
      assert IsLeast(some, texts);
    } else {
      LeastExists(rest);
      var least :| IsLeast(least, rest);
      LexTotal(some, least);
      forall other | other in rest && LexLess(some, least) ensures LexLess(some, other) {
        if other != least { LexTransitive(some, least, other); }
      }
      assert IsLeast(if LexLess(some, least) then some else least, texts);
    }
  }

  function Digit(n: nat): (c: char)
    requires n < 10
    ensures '0' <= c <= '9'
  {
    '0' + n as char
  }

  /** Rust's `Display` for unsigned integers. */
  function Decimal(n: nat): (s: string)
    ensures s != "" && forall c :: c in s ==> '0' <= c <= '9'
    ensures |s| == 1 || s[0] != '0'
    ensures n != 0 ==> s[0] != '0'
  {
    if n < 10 then [Digit(n)] else Decimal(n / 10) + [Digit(n % 10)]
  }

  /** The number a text of decimal digits stands for. */
  function ParseDecimal(s: string): Option<nat> {
    if s == "" then None
    else
      var last := s[|s| - 1];
      if !('0' <= last <= '9') then None
      else if |s| == 1 then Some((last - '0') as nat)
      else
        match ParseDecimal(s[..|s| - 1])
        case None => None
        case Some(n) => Some(10 * n + (last - '0') as nat)
  }

  lemma {:induction false} DecimalRoundTrip(n: nat)
    ensures ParseDecimal(Decimal(n)) == Some(n)
  {
    if n < 10 {
    } else {
      DecimalRoundTrip(n / 10);
      var s := Decimal(n);
      assert s[..|s| - 1] == Decimal(n / 10);
    }
  }
}
