// String helpers used by the prober: Go's strings.Join, its inverse strings.Split
// (used here only to state that an output line can be read back), and the
// list-membership search `in`.
module Strings {

  /** strings.Join: the elements of `parts` with `sep` between consecutive ones. */
  function Join(parts: seq<string>, sep: string): (r: string)
    ensures |parts| == 0 ==> r == ""
    ensures forall ch :: ch in r ==> ch in sep || exists k :: 0 <= k < |parts| && ch in parts[k]
  {
    if |parts| == 0 then ""
    else if |parts| == 1 then parts[0]
    else
      var rest := Join(parts[1..], sep);
      assert forall ch :: ch in rest ==> ch in sep || exists k :: 0 <= k < |parts| && ch in parts[k] by {
        forall ch | ch in rest && ch !in sep
          ensures exists k :: 0 <= k < |parts| && ch in parts[k]
        {
          var j :| 0 <= j < |parts| - 1 && ch in parts[1..][j];
          assert ch in parts[j + 1];
        }
      }
      parts[0] + sep + rest
  }

  /** strings.Split on a one-character separator: the maximal separator-free pieces of `s`. */
  function Split(s: string, c: char): (r: seq<string>)
    ensures |r| >= 1
    ensures forall k :: 0 <= k < |r| ==> c !in r[k]
    decreases |s|
  {
    if |s| == 0 then [""]
    else
      var rest := Split(s[1..], c);
      if s[0] == c then
        [""] + rest
      else
        var r := [[s[0]] + rest[0]] + rest[1..];
        assert forall k :: 1 <= k < |r| ==> r[k] == rest[k];
        r
  }

  /** Join undoes Split: joining the pieces with the separator gives back the string. */
  lemma {:induction false} JoinSplit(s: string, c: char)
    ensures Join(Split(s, c), [c]) == s
    decreases |s|
  {
    if |s| > 0 {
      var rest := Split(s[1..], c);
      JoinSplit(s[1..], c);
      assert s == [s[0]] + s[1..];
      if s[0] == c {
        assert ([""] + rest)[1..] == rest;
      } else {
        var r := Split(s, c);
        assert r[0] == [s[0]] + rest[0];
        assert r[1..] == rest[1..];
      }
    }
  }

  /** A piece without the separator splits to itself. */
  lemma {:induction false} SplitNoSeparator(a: string, c: char)
    requires c !in a
    ensures Split(a, c) == [a]
  {
    if |a| > 0 {
      SplitNoSeparator(a[1..], c);
      assert a == [a[0]] + a[1..];
    }
  }

  /** Splitting at the first separator peels off the piece before it. */
  lemma {:induction false} SplitAtFirst(a: string, b: string, c: char)
    requires c !in a
    ensures Split(a + [c] + b, c) == [a] + Split(b, c)
  {
    var s := a + [c] + b;
    if |a| == 0 {
      assert s == [c] + b;
      assert s[1..] == b;
    } else {
      SplitAtFirst(a[1..], b, c);
      assert s[1..] == a[1..] + [c] + b;
      assert a == [a[0]] + a[1..];
    }
  }

  /** The first occurrence of the separator in a string that holds one. */
  lemma {:induction false} FirstSeparator(a: string, c: char) returns (i: nat)
    requires c in a
    ensures i < |a| && a[i] == c && c !in a[..i]
  {
    if a[0] == c {
      i := 0;
    } else {
      assert c in a[1..];
      var j := FirstSeparator(a[1..], c);
      i := j + 1;
      assert a[..i] == [a[0]] + a[1..][..j];
    }
  }

  /** Splitting at one separator splits each side on its own. */
  lemma {:induction false} SplitAround(a: string, b: string, c: char)
    ensures Split(a + [c] + b, c) == Split(a, c) + Split(b, c)
    decreases |a|
  {
    if c !in a {
      SplitAtFirst(a, b, c);
      SplitNoSeparator(a, c);
    } else {
      var i := FirstSeparator(a, c);
      var a1, a2 := a[..i], a[i + 1..];
      assert a == a1 + [c] + a2;
      assert a + [c] + b == a1 + [c] + (a2 + [c] + b);
      SplitAtFirst(a1, a2 + [c] + b, c);
      SplitAround(a2, b, c);
      SplitAtFirst(a1, a2, c);
      assert [a1] + (Split(a2, c) + Split(b, c)) == ([a1] + Split(a2, c)) + Split(b, c);
    }
  }

  /** Split undoes Join when no piece holds the separator (and there is at least one piece). */
  lemma {:induction false} SplitJoin(parts: seq<string>, c: char)
    requires |parts| > 0
    requires forall k :: 0 <= k < |parts| ==> c !in parts[k]
    ensures Split(Join(parts, [c]), c) == parts
  {
    if |parts| == 1 {
      SplitNoSeparator(parts[0], c);
    } else {
      SplitJoin(parts[1..], c);
      SplitAtFirst(parts[0], Join(parts[1..], [c]), c);
      assert parts == [parts[0]] + parts[1..];
    }
  }

  /** Joining with a separator keeps the first piece, then the separator, in front. */
  lemma {:induction false} SplitJoinHead(parts: seq<string>, c: char)
    requires |parts| > 1
    requires c !in parts[0]
    ensures Split(Join(parts, [c]), c) == [parts[0]] + Split(Join(parts[1..], [c]), c)
  {
    SplitAtFirst(parts[0], Join(parts[1..], [c]), c);
  }

  /** in: whether `s` is one of the strings in `list`, by a left-to-right search. */
  method In(list: seq<string>, s: string) returns (found: bool)
    ensures found <==> s in list
  {
    for i := 0 to |list|
      invariant forall k :: 0 <= k < i ==> list[k] != s
    {
      if s == list[i] {
        return true;
      }
    }
    return false;
  }
}
