/**
 * Joining strings with a separator, as JavaScript's `Array.prototype.join`
 * does, and splitting them again, as `String.prototype.split` does with a
 * one-character separator. Split is the partner that shows Join loses
 * nothing when no part contains the separator.
 */
module Strings {

  /** `parts.join(sep)`: the empty array joins to "", one part to itself. */
  function Join(parts: seq<string>, sep: char): (r: string)
    ensures |parts| == 0 ==> r == ""
    ensures |parts| == 1 ==> r == parts[0]
    decreases |parts|
  {
    if |parts| == 0 then ""
    else if |parts| == 1 then parts[0]
    else parts[0] + [sep] + Join(parts[1..], sep)
  }

  /** `s.split(sep)`: always at least one piece, and no piece holds the separator. */
  function Split(s: string, sep: char): (r: seq<string>)
    ensures |r| >= 1
    ensures forall i :: 0 <= i < |r| ==> sep !in r[i]
    decreases |s|
  {
    if |s| == 0 then [""]
    else
      var rest := Split(s[1..], sep);
      if s[0] == sep then [""] + rest
      else [[s[0]] + rest[0]] + rest[1..]
  }

  lemma {:induction false} SplitWithoutSeparator(p: string, sep: char)
    requires sep !in p
    ensures Split(p, sep) == [p]
    decreases |p|
  {
    if |p| > 0 {
      SplitWithoutSeparator(p[1..], sep);
      assert [p[0]] + p[1..] == p;
    }
  }

  lemma {:induction false} SplitAfterSeparator(p: string, sep: char, s: string)
    requires sep !in p
    ensures Split(p + [sep] + s, sep) == [p] + Split(s, sep)
    decreases |p|
  {
    var x := p + [sep] + s;
    if |p| == 0 {
      assert x[1..] == s;
    } else {
      assert x[1..] == p[1..] + [sep] + s;
      SplitAfterSeparator(p[1..], sep, s);
      assert [p[0]] + p[1..] == p;
    }
  }

  /** Splitting a join gives back the parts, as long as none of them holds the separator. */
  lemma {:induction false} SplitJoin(parts: seq<string>, sep: char)
    requires |parts| >= 1
    requires forall i :: 0 <= i < |parts| ==> sep !in parts[i]
    ensures Split(Join(parts, sep), sep) == parts
    decreases |parts|
  {
    if |parts| == 1 {
      SplitWithoutSeparator(parts[0], sep);
    } else {
      SplitJoin(parts[1..], sep);
      SplitAfterSeparator(parts[0], sep, Join(parts[1..], sep));
      assert [parts[0]] + parts[1..] == parts;
    }
  }
}
