/** String helpers with the meaning Python gives them: `str.lower`, the `in`
    substring test, `str.join`, and counting one character. */
module Text {

  /** Lower-cases one character: ASCII A-Z and the Latin-1 capitals
      U+00C0..U+00DE (except the multiplication sign U+00D7) move up by 0x20,
      as Python's `str.lower` does for them; every other character is kept
      (capitals beyond Latin-1 are not lower-cased here). */
  function LowerChar(c: char): (r: char)
    ensures 'A' <= c <= 'Z' ==> r as int == c as int + 32
    ensures 'À' <= c <= 'Þ' && c != '×' ==> r as int == c as int + 32
    ensures (!('A' <= c <= 'Z') && !('À' <= c <= 'Þ')) || c == '×' ==> r == c
  {
    if 'A' <= c <= 'Z' then (c as int + 32) as char
    else if 'À' <= c <= 'Þ' && c != '×' then (c as int + 32) as char
    else c
  }

  /** `str.lower` for those characters: each one lower-cased on its own. */
  function Lower(s: string): (r: string)
    ensures |r| == |s|
    ensures forall i :: 0 <= i < |s| ==> r[i] == LowerChar(s[i])
  {
    seq(|s|, i requires 0 <= i < |s| => LowerChar(s[i]))
  }

  /** Lower-casing commutes with taking a slice. */
  lemma LowerSlice(s: string, i: nat, j: nat)
    requires i <= j <= |s|
    ensures Lower(s)[i..j] == Lower(s[i..j])
  {
    var l := Lower(s);
    var m := Lower(s[i..j]);
    forall k | 0 <= k < j - i
      ensures l[i..j][k] == m[k]
    {
      assert l[i..j][k] == l[i + k] == LowerChar(s[i + k]);
      assert m[k] == LowerChar(s[i..j][k]);
    }
  }

  /** Lower-casing twice is lower-casing once. */
  lemma LowerIdempotent(s: string)
    ensures Lower(Lower(s)) == Lower(s)
  {
    forall i | 0 <= i < |s|
      ensures LowerChar(LowerChar(s[i])) == LowerChar(s[i])
    {
    }
  }

  predicate IsPrefix(p: string, s: string) {
    |p| <= |s| && s[..|p|] == p
  }

  /** Python's `p in s` for strings: `p` occurs in `s` at some position. */
  predicate Occurs(p: string, s: string)
    decreases |s|
  {
    IsPrefix(p, s) || (|s| > 0 && Occurs(p, s[1..]))
  }

  lemma {:induction false} OccursAt(p: string, s: string, i: nat)
    requires i + |p| <= |s| && s[i..i + |p|] == p
    ensures Occurs(p, s)
    decreases i
  {
    if i == 0 {
      assert s[..|p|] == p;
    } else {
      assert s[1..][i - 1..i - 1 + |p|] == s[i..i + |p|];
      OccursAt(p, s[1..], i - 1);
    }
  }

  /** Python's `sep.join(parts)`. */
  function Join(parts: seq<string>, sep: string): (r: string)
    ensures parts == [] ==> r == ""
    ensures |parts| == 1 ==> r == parts[0]
  {
    if parts == [] then ""
    else if |parts| == 1 then parts[0]
    else parts[0] + sep + Join(parts[1..], sep)
  }

  /** The number of times `c` occurs in `s`. */
  function Count(c: char, s: string): (n: nat)
    ensures n <= |s|
  {
    if s == [] then 0 else (if s[0] == c then 1 else 0) + Count(c, s[1..])
  }

  lemma {:induction false} CountAppend(c: char, a: string, b: string)
    ensures Count(c, a + b) == Count(c, a) + Count(c, b)
  {
    if a == [] {
      assert a + b == b;
    } else {
      assert (a + b)[1..] == a[1..] + b;
      CountAppend(c, a[1..], b);
    }
  }

  /** A character that does not occur is counted zero times. */
  lemma {:induction false} CountAbsent(c: char, s: string)
    requires c !in s
    ensures Count(c, s) == 0
  {
    if s != [] {
      assert c !in s[1..];
      CountAbsent(c, s[1..]);
    }
  }

  /** Occurrences of `c` in a joined list: the parts' own plus one per separator. */
  lemma {:induction false} CountJoin(c: char, parts: seq<string>, sep: string)
    requires |parts| > 0
    ensures Count(c, Join(parts, sep)) == SumCounts(c, parts) + (|parts| - 1) * Count(c, sep)
  {
    if |parts| > 1 {
      var rest := Join(parts[1..], sep);
      assert Join(parts, sep) == (parts[0] + sep) + rest;
      CountAppend(c, parts[0] + sep, rest);
      CountAppend(c, parts[0], sep);
      CountJoin(c, parts[1..], sep);
      assert (|parts| - 1) * Count(c, sep) == Count(c, sep) + (|parts| - 2) * Count(c, sep);
    }
  }

  function SumCounts(c: char, parts: seq<string>): nat {
    if parts == [] then 0 else Count(c, parts[0]) + SumCounts(c, parts[1..])
  }

  lemma {:induction false} SumCountsAppend(c: char, a: seq<string>, b: seq<string>)
    ensures SumCounts(c, a + b) == SumCounts(c, a) + SumCounts(c, b)
  {
    if a == [] {
      assert a + b == b;
    } else {
      assert (a + b)[1..] == a[1..] + b;
      SumCountsAppend(c, a[1..], b);
    }
  }
}
