/**
 * The handful of Python string operations the identity parser relies on:
 * `str.strip()`, `str.split(sep)`, `sep.join(parts)` and slicing with
 * non-negative or negative bounds, which truncates instead of failing.
 */
module PyString {

  function Min(a: int, b: int): int
  {
    if a <= b then a else b
  }

  /** The ASCII whitespace that `strip()` without arguments removes. */
  predicate IsSpace(c: char)
  {
    c == ' ' || c == '\t' || c == '\n' || c == '\r' || c == '\U{0B}' || c == '\U{0C}'
  }

  /** Index of the first non-whitespace character at or after `i`. */
  function SkipSpace(s: string, i: nat): (j: nat)
    requires i <= |s|
    ensures i <= j <= |s|
    ensures forall k :: i <= k < j ==> IsSpace(s[k])
    ensures j == |s| || !IsSpace(s[j])
    decreases |s| - i
  {
    if i == |s| || !IsSpace(s[i]) then i else SkipSpace(s, i + 1)
  }

  /** Index just past the last non-whitespace character in `s[lo..j]`. */
  function SkipSpaceBack(s: string, lo: nat, j: nat): (i: nat)
    requires lo <= j <= |s|
    ensures lo <= i <= j
    ensures forall k :: i <= k < j ==> IsSpace(s[k])
    ensures i == lo || !IsSpace(s[i - 1])
  {
    if j == lo || !IsSpace(s[j - 1]) then j else SkipSpaceBack(s, lo, j - 1)
  }

  /**
   * `s.strip()`: the result is a contiguous piece of `s`, everything cut off
   * on either side is whitespace, and the result neither starts nor ends with
   * whitespace.
   */
  function Strip(s: string): (r: string)
    ensures var a := SkipSpace(s, 0);
      && a + |r| <= |s|
      && r == s[a..a + |r|]
      && (forall k :: 0 <= k < a ==> IsSpace(s[k]))
      && (forall k :: a + |r| <= k < |s| ==> IsSpace(s[k]))
    ensures r == [] || (!IsSpace(r[0]) && !IsSpace(r[|r| - 1]))
  {
    var a := SkipSpace(s, 0);
    s[a..SkipSpaceBack(s, a, |s|)]
  }

  /** A string with no surrounding whitespace is its own strip. */
  lemma StripUnchanged(s: string)
    requires s == [] || (!IsSpace(s[0]) && !IsSpace(s[|s| - 1]))
    ensures Strip(s) == s
  {
  }

  /**
   * A line read up to and including its line feed strips to the line, when
   * the line itself has no surrounding whitespace.
   */
  lemma StripLineFeed(s: string)
    requires s == [] || (!IsSpace(s[0]) && !IsSpace(s[|s| - 1]))
    ensures Strip(s + "\n") == s
  {
    var t := s + "\n";
    if s == [] {
      assert SkipSpace(t, 0) == |t|;
    } else {
      assert SkipSpace(t, 0) == 0;
      assert SkipSpaceBack(t, 0, |t|) == |s|;
      assert t[..|s|] == s;
    }
  }

  /** Stripping twice is stripping once. */
  lemma StripIdempotent(s: string)
    ensures Strip(Strip(s)) == Strip(s)
  {
    StripUnchanged(Strip(s));
  }

  /** Number of occurrences of `c` in `s`. */
  function Count(s: string, c: char): (n: nat)
    ensures n <= |s|
    ensures n == 0 <==> c !in s
  {
    if s == [] then 0 else (if s[0] == c then 1 else 0) + Count(s[1..], c)
  }

  /** `sep.join(parts)`. */
  function Join(parts: seq<string>, sep: char): string
  {
    if |parts| == 0 then []
    else if |parts| == 1 then parts[0]
    else parts[0] + [sep] + Join(parts[1..], sep)
  }

  /** Joining four fields puts the separator between each neighbouring pair. */
  lemma JoinFour(a: string, b: string, c: string, d: string, sep: char)
    ensures Join([a, b, c, d], sep) == a + [sep] + b + [sep] + c + [sep] + d
  {
    assert [a, b, c, d][1..] == [b, c, d];
    assert [b, c, d][1..] == [c, d];
    assert [c, d][1..] == [d];
    calc {
      Join([a, b, c, d], sep);
      a + [sep] + Join([b, c, d], sep);
      a + [sep] + (b + [sep] + Join([c, d], sep));
      a + [sep] + (b + [sep] + (c + [sep] + Join([d], sep)));
      a + [sep] + (b + [sep] + (c + [sep] + d));
      a + [sep] + b + [sep] + c + [sep] + d;
    }
  }

  /**
   * `s.split(sep)` for a one-character separator: every occurrence of `sep`
   * separates two fields, so there is always one field more than there are
   * separators, and no field contains `sep`.
   */
  function Split(s: string, sep: char): (parts: seq<string>)
    ensures |parts| == Count(s, sep) + 1
    ensures forall i :: 0 <= i < |parts| ==> sep !in parts[i]
  {
    if s == [] then [[]]
    else
      var rest := Split(s[1..], sep);
      if s[0] == sep then [[]] + rest
      else
        var parts := [[s[0]] + rest[0]] + rest[1..];
        assert parts[1..] == rest[1..];
        parts
  }

  /** Putting a character in front of the first field of a join. */
  lemma JoinFirst(c: char, parts: seq<string>, sep: char)
    requires |parts| >= 1
    ensures Join([[c] + parts[0]] + parts[1..], sep) == [c] + Join(parts, sep)
  {
    var parts' := [[c] + parts[0]] + parts[1..];
    assert parts'[1..] == parts[1..];
  }

  /** Unfolding `Split` on a string that starts with the separator. */
  lemma SplitSep(u: string, sep: char)
    ensures Split([sep] + u, sep) == [[]] + Split(u, sep)
  {
    assert ([sep] + u)[1..] == u;
  }

  /** Unfolding `Split` on a string that starts with another character. */
  lemma SplitCons(c: char, u: string, sep: char)
    requires c != sep
    ensures Split([c] + u, sep) == [[c] + Split(u, sep)[0]] + Split(u, sep)[1..]
  {
    assert ([c] + u)[1..] == u;
  }

  /** Joining the fields of `s` back with the separator gives `s` again. */
  lemma {:induction false} JoinSplit(s: string, sep: char)
    ensures Join(Split(s, sep), sep) == s
  {
    if s != [] {
      var u := s[1..];
      assert s == [s[0]] + u;
      JoinSplit(u, sep);
      if s[0] == sep {
        SplitSep(u, sep);
        assert Join([[]] + Split(u, sep), sep) == [] + [sep] + Join(Split(u, sep), sep);
      } else {
        SplitCons(s[0], u, sep);
        JoinFirst(s[0], Split(u, sep), sep);
      }
    }
  }

  lemma ConsAppend(p: string, x: string)
    requires |p| > 0
    ensures [p[0]] + (p[1..] + x) == p + x
  {
    assert [p[0]] + p[1..] == p;
  }

  /** A leading piece without the separator merges into the first field. */
  lemma {:induction false} SplitPrefix(p: string, t: string, sep: char)
    requires sep !in p
    ensures Split(p + t, sep) == [p + Split(t, sep)[0]] + Split(t, sep)[1..]
  {
    var q := Split(t, sep);
    if p == [] {
      assert p + t == t;
      assert p + q[0] == q[0];
      assert q == [q[0]] + q[1..];
    } else {
      var u := p[1..] + t;
      assert p + t == [p[0]] + u;
      SplitPrefix(p[1..], t, sep);
      var r := Split(u, sep);
      assert r == [p[1..] + q[0]] + q[1..];
      assert r[0] == p[1..] + q[0] && r[1..] == q[1..];
      SplitCons(p[0], u, sep);
      ConsAppend(p, q[0]);
    }
  }

  /**
   * The other round trip: fields without the separator, joined and split
   * again, come back unchanged.
   */
  lemma {:induction false} SplitJoin(parts: seq<string>, sep: char)
    requires |parts| >= 1
    requires forall i :: 0 <= i < |parts| ==> sep !in parts[i]
    ensures Split(Join(parts, sep), sep) == parts
  {
    if |parts| == 1 {
      SplitPrefix(parts[0], [], sep);
      assert parts[0] + [] == parts[0];
    } else {
      var t := Join(parts[1..], sep);
      SplitJoin(parts[1..], sep);
      assert parts[0] + [sep] + t == parts[0] + ([sep] + t);
      SplitPrefix(parts[0], [sep] + t, sep);
      assert ([sep] + t)[1..] == t;
      assert Split([sep] + t, sep) == [[]] + Split(t, sep);
      assert parts[0] + [] == parts[0];
      assert parts == [parts[0]] + parts[1..];
    }
  }

  /**
   * `s[lo:hi]` for non-negative bounds: bounds past the end are cut back to
   * the end, and an empty range gives the empty string.
   */
  function Slice(s: string, lo: nat, hi: nat): (r: string)
    ensures |r| == if lo < Min(hi, |s|) then Min(hi, |s|) - lo else 0
    ensures forall k :: 0 <= k < |r| ==> r[k] == s[lo + k]
  {
    var h := Min(hi, |s|);
    if lo < h then s[lo..h] else []
  }

  /**
   * `s[-n:]` for a positive `n`: the last `n` characters, or all of `s` when
   * it is shorter. (`s[-0:]` is all of `s` and is not needed here.)
   */
  function Last(s: string, n: nat): (r: string)
    requires n > 0
    ensures |r| == Min(n, |s|)
    ensures s == s[..|s| - |r|] + r
  {
    if |s| <= n then s else s[|s| - n..]
  }
}
