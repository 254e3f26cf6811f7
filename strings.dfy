/** Facts about string concatenation used by the id builders, and the dotted paths of object-path. */
module Strings {

  predicate IsPrefix(p: string, s: string) {
    |p| <= |s| && s[..|p|] == p
  }

  predicate IsSuffix(t: string, s: string) {
    |t| <= |s| && s[|s| - |t|..] == t
  }

  /** Two strings whose suffixes end in different characters are different. */
  lemma DifferentLastCharacter(a: string, x: string, b: string, y: string)
    requires |x| > 0 && |y| > 0 && x[|x| - 1] != y[|y| - 1]
    ensures a + x != b + y
  {
    var s, t := a + x, b + y;
    assert s[|s| - 1] == x[|x| - 1];
    assert t[|t| - 1] == y[|y| - 1];
  }

  lemma PrefixOfConcat(p: string, rest: string)
    ensures IsPrefix(p, p + rest)
  {
    assert (p + rest)[..|p|] == p;
  }

  lemma SuffixOfConcat(rest: string, t: string)
    ensures IsSuffix(t, rest + t)
  {
    assert (rest + t)[|rest + t| - |t|..] == t;
  }

  /** The segments of `s` between occurrences of `sep`, as `s.split(sep)` gives them. */
  function Split(s: string, sep: char): (parts: seq<string>)
    ensures |parts| >= 1
    ensures forall i :: 0 <= i < |parts| ==> sep !in parts[i]
    decreases |s|
  {
    if |s| == 0 then [""]
    else
      var rest := Split(s[1..], sep);
      if s[0] == sep then [""] + rest
      else [[s[0]] + rest[0]] + rest[1..]
  }

  /** The segments joined with `sep` between them. */
  function Join(parts: seq<string>, sep: char): (s: string)
    ensures |parts| == 0 ==> s == ""
    ensures |parts| >= 1 ==> IsPrefix(parts[0], s) && IsSuffix(parts[|parts| - 1], s)
    ensures |parts| >= 1 ==> |s| >= |parts[0]| + |parts| - 1
    decreases |parts|
  {
    if |parts| == 0 then ""
    else if |parts| == 1 then parts[0]
    else
      var rest := Join(parts[1..], sep);
      PrefixOfConcat(parts[0], [sep] + rest);
      assert parts[0] + [sep] + rest == (parts[0] + [sep]) + rest;
      SuffixOfConcat(parts[0] + [sep] + rest[..|rest| - |parts[|parts| - 1]|], parts[|parts| - 1]);
      assert rest == rest[..|rest| - |parts[|parts| - 1]|] + parts[|parts| - 1];
      parts[0] + [sep] + rest
  }

  /** Splitting loses nothing: joining the segments gives the string back. */
  lemma {:induction false} JoinSplit(s: string, sep: char)
    ensures Join(Split(s, sep), sep) == s
    decreases |s|
  {
    if |s| > 0 {
      JoinSplit(s[1..], sep);
      if s[0] == sep {
        JoinSplitAtSeparator(s, sep);
      } else {
        JoinSplitInSegment(s, sep);
      }
    }
  }

  /** A leading separator ends an empty first segment. */
  lemma JoinSplitAtSeparator(s: string, sep: char)
    requires |s| > 0 && s[0] == sep
    requires Join(Split(s[1..], sep), sep) == s[1..]
    ensures Join(Split(s, sep), sep) == s
  {
    var rest := Split(s[1..], sep);
    assert Split(s, sep) == [""] + rest;
    assert ([""] + rest)[1..] == rest;
    assert Join(Split(s, sep), sep) == "" + [sep] + Join(rest, sep);
    assert s == [s[0]] + s[1..];
  }

  /** A leading character other than the separator starts the first segment. */
  lemma JoinSplitInSegment(s: string, sep: char)
    requires |s| > 0 && s[0] != sep
    requires Join(Split(s[1..], sep), sep) == s[1..]
    ensures Join(Split(s, sep), sep) == s
  {
    var rest := Split(s[1..], sep);
    calc {
      Join(Split(s, sep), sep);
      Join([[s[0]] + rest[0]] + rest[1..], sep);
      { if |rest| == 1 { JoinOneSegment(s[0], rest, sep); } else { JoinLongerSegment(s[0], rest, sep); } }
      [s[0]] + Join(rest, sep);
      [s[0]] + s[1..];
      { assert s == [s[0]] + s[1..]; }
      s;
    }
  }

  /** Putting `c` in front of the only segment puts it in front of the joined string. */
  lemma JoinOneSegment(c: char, rest: seq<string>, sep: char)
    requires |rest| == 1
    ensures Join([[c] + rest[0]] + rest[1..], sep) == [c] + Join(rest, sep)
  {
    assert [[c] + rest[0]] + rest[1..] == [[c] + rest[0]];
  }

  /** Putting `c` in front of the first of several segments puts it in front of the joined string. */
  lemma JoinLongerSegment(c: char, rest: seq<string>, sep: char)
    requires |rest| >= 2
    ensures Join([[c] + rest[0]] + rest[1..], sep) == [c] + Join(rest, sep)
  {
    var parts := [[c] + rest[0]] + rest[1..];
    var tail := Join(rest[1..], sep);
    assert parts[1..] == rest[1..];
    assert Join(parts, sep) == ([c] + rest[0]) + [sep] + tail;
    assert ([c] + rest[0]) + [sep] + tail == [c] + (rest[0] + [sep] + tail);
  }

  /** A string without the separator is one segment. */
  lemma {:induction false} SplitWithoutSeparator(s: string, sep: char)
    requires sep !in s
    ensures Split(s, sep) == [s]
    decreases |s|
  {
    if |s| > 0 {
      SplitWithoutSeparator(s[1..], sep);
      assert [s[0]] + s[1..] == s;
    }
  }

  /** The first separator ends the first segment, and the rest is split on its own. */
  lemma {:induction false} SplitAtSeparator(a: string, b: string, sep: char)
    requires sep !in a
    ensures Split(a + [sep] + b, sep) == [a] + Split(b, sep)
    decreases |a|
  {
    var s := a + [sep] + b;
    if |a| == 0 {
      assert s[0] == sep && s[1..] == b;
    } else {
      assert s[0] == a[0] && s[1..] == a[1..] + [sep] + b;
      SplitAtSeparator(a[1..], b, sep);
      assert [a[0]] + a[1..] == a;
    }
  }
}
