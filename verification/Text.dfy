/** The parts of Go's `strings` package that the connector relies on: `Split`, `Join` and
    `Contains`, together with the laws that connect them. */
module Text {

  /** `strings.Split` for a one-character separator. */
  function Split(s: string, sep: char): (parts: seq<string>)
    ensures |parts| > 0
  {
    if s == [] then [[]]
    else
      var rest := Split(s[1..], sep);
      if s[0] == sep then [[]] + rest else [[s[0]] + rest[0]] + rest[1..]
  }

  /** `strings.Join` for a one-character separator. */
  function Join(parts: seq<string>, sep: char): string {
    if parts == [] then ""
    else if |parts| == 1 then parts[0]
    else parts[0] + [sep] + Join(parts[1..], sep)
  }

  ghost predicate FreeOf(sep: char, parts: seq<string>) {
    forall x :: x in parts ==> sep !in x
  }

  lemma {:induction false} SplitIsFree(s: string, sep: char)
    ensures FreeOf(sep, Split(s, sep))
  {
    if s != [] {
      SplitIsFree(s[1..], sep);
    }
  }

  lemma {:induction false} JoinOfSplit(s: string, sep: char)
    ensures Join(Split(s, sep), sep) == s
  {
    if s != [] {
      JoinOfSplit(s[1..], sep);
      var rest := Split(s[1..], sep);
      var all := Split(s, sep);
      assert all[1..] == if s[0] == sep then rest else rest[1..];
    }
  }

  /** There is one part more than there are separators. */
  lemma {:induction false} SplitCount(s: string, sep: char)
    ensures |Split(s, sep)| == multiset(s)[sep] + 1
  {
    if s != [] {
      SplitCount(s[1..], sep);
      assert s == [s[0]] + s[1..];
    }
  }

  /** Splitting consumes a separator-free head whole. */
  lemma {:induction false} SplitHead(head: string, tail: string, sep: char)
    requires sep !in head
    ensures Split(head, sep) == [head]
    ensures Split(head + [sep] + tail, sep) == [head] + Split(tail, sep)
  {
    var s := head + [sep] + tail;
    if head == [] {
      assert s[1..] == tail;
    } else {
      SplitHead(head[1..], tail, sep);
      assert [head[0]] + head[1..] == head;
      assert s[1..] == head[1..] + [sep] + tail;
    }
  }

  lemma {:induction false} SplitOfFreeJoin(parts: seq<string>, sep: char)
    requires parts != [] && FreeOf(sep, parts)
    ensures Split(Join(parts, sep), sep) == parts
  {
    if |parts| == 1 {
      SplitHead(parts[0], "", sep);
    } else {
      SplitHead(parts[0], Join(parts[1..], sep), sep);
      SplitOfFreeJoin(parts[1..], sep);
    }
  }

  /** A joined list can be recovered exactly when it is non-empty and no element holds the
      separator. */
  lemma SplitInvertsJoin(parts: seq<string>, sep: char)
    ensures Split(Join(parts, sep), sep) == parts <==> parts != [] && FreeOf(sep, parts)
  {
    SplitIsFree(Join(parts, sep), sep);
    if parts != [] && FreeOf(sep, parts) {
      SplitOfFreeJoin(parts, sep);
    }
  }

  // ----- substrings

  predicate MatchesAt(s: string, p: string, i: nat) {
    i + |p| <= |s| && s[i..i + |p|] == p
  }

  /** `strings.Contains`. */
  predicate Contains(s: string, p: string) {
    exists i :: 0 <= i <= |s| && MatchesAt(s, p, i)
  }

  lemma ContainsInContext(before: string, s: string, after: string, p: string)
    requires Contains(s, p)
    ensures Contains(before + s + after, p)
  {
    var i :| 0 <= i <= |s| && MatchesAt(s, p, i);
    var t := before + s + after;
    assert t[|before| + i..|before| + i + |p|] == s[i..i + |p|];
    assert MatchesAt(t, p, |before| + i);
  }

  lemma StraddledIsInside(s: string, p: string, i: nat, k: nat)
    requires MatchesAt(s, p, i) && i <= k < i + |p|
    ensures s[k] in p
  {
  }

  /** A character outside the pattern is a wall no occurrence can straddle. */
  lemma ContainsAcrossWall(left: string, wall: char, right: string, p: string)
    requires p != [] && wall !in p
    ensures Contains(left + [wall] + right, p) <==> Contains(left, p) || Contains(right, p)
  {
    var s := left + [wall] + right;
    if Contains(left, p) {
      ContainsInContext("", left, [wall] + right, p);
      assert "" + left + ([wall] + right) == s;
    }
    if Contains(right, p) {
      ContainsInContext(left + [wall], right, "", p);
      assert left + [wall] + right + "" == s;
    }
    if Contains(s, p) {
      var i :| 0 <= i <= |s| && MatchesAt(s, p, i);
      if i + |p| <= |left| {
        assert left[i..i + |p|] == s[i..i + |p|];
        assert MatchesAt(left, p, i);
      } else if i > |left| {
        var k := i - |left| - 1;
        assert right[k..k + |p|] == s[i..i + |p|];
        assert MatchesAt(right, p, k);
      } else {
        StraddledIsInside(s, p, i, |left|);
      }
    }
  }
}
