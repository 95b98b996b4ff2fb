/**
 * The handful of Python `str` operations the core relies on, stated over
 * `seq<char>`: `strip()`, `lower()`, `startswith`, the `in` substring test,
 * slicing a prefix, `split` on a one-character separator and `join`.
 */
module Strings {

  /** `str.isspace()` for one code point: exactly the characters Python strips. */
  predicate IsSpace(c: char) {
    var n := c as int;
    (0x09 <= n <= 0x0D) || (0x1C <= n <= 0x20) || n == 0x85 || n == 0xA0 || n == 0x1680 ||
    (0x2000 <= n <= 0x200A) || n == 0x2028 || n == 0x2029 || n == 0x202F || n == 0x205F || n == 0x3000
  }

  /** `s.lstrip()` */
  function StripLeft(s: string): string {
    if |s| > 0 && IsSpace(s[0]) then StripLeft(s[1..]) else s
  }

  /** `s.rstrip()` */
  function StripRight(s: string): string {
    if |s| > 0 && IsSpace(s[|s| - 1]) then StripRight(s[..|s| - 1]) else s
  }

  /** `lstrip()` removes a run of white space from the front, and all of it. */
  lemma {:induction false} StripLeftRemovesLeadingSpace(s: string)
    ensures var r := StripLeft(s);
      && |r| <= |s| && r == s[|s| - |r|..]
      && (r == [] || !IsSpace(r[0]))
      && forall i :: 0 <= i < |s| - |r| ==> IsSpace(s[i])
  {
    if |s| > 0 && IsSpace(s[0]) {
      StripLeftRemovesLeadingSpace(s[1..]);
    }
  }

  /** `rstrip()` removes a run of white space from the back, and all of it. */
  lemma {:induction false} StripRightRemovesTrailingSpace(s: string)
    ensures var r := StripRight(s);
      && |r| <= |s| && r == s[..|r|]
      && (r == [] || !IsSpace(r[|r| - 1]))
      && forall i :: |r| <= i < |s| ==> IsSpace(s[i])
  {
    if |s| > 0 && IsSpace(s[|s| - 1]) {
      StripRightRemovesTrailingSpace(s[..|s| - 1]);
    }
  }

  /** A string of white space alone strips to nothing. */
  lemma {:induction false} StripAllSpace(s: string)
    requires forall i :: 0 <= i < |s| ==> IsSpace(s[i])
    ensures StripLeft(s) == [] && Strip(s) == []
  {
    if s != [] {
      StripAllSpace(s[1..]);
    }
  }

  /** `s.strip()` */
  function Strip(s: string): string {
    StripRight(StripLeft(s))
  }

  /** A string whose first and last characters are not white space is its own `strip()`. */
  lemma StripUnchanged(s: string)
    requires s != [] && !IsSpace(s[0]) && !IsSpace(s[|s| - 1])
    ensures Strip(s) == s
  {
  }

  /** `c.lower()` on the ASCII letters. */
  function LowerChar(c: char): char {
    if 'A' <= c <= 'Z' then (c as int + 32) as char else c
  }

  /** `c.upper()` on the ASCII letters. */
  function UpperChar(c: char): char {
    if 'a' <= c <= 'z' then (c as int - 32) as char else c
  }

  /** `s.lower()` */
  function Lower(s: string): (r: string)
    ensures |r| == |s|
  {
    if s == [] then [] else [LowerChar(s[0])] + Lower(s[1..])
  }

  /** `s.upper()` */
  function Upper(s: string): (r: string)
    ensures |r| == |s|
  {
    if s == [] then [] else [UpperChar(s[0])] + Upper(s[1..])
  }

  lemma {:induction false} LowerAt(s: string, i: nat)
    requires i < |s|
    ensures Lower(s)[i] == LowerChar(s[i])
  {
    if i > 0 {
      LowerAt(s[1..], i - 1);
    }
  }

  /** A string without ASCII capitals is its own `lower()`. */
  lemma {:induction false} LowerUnchanged(s: string)
    requires forall i :: 0 <= i < |s| ==> !('A' <= s[i] <= 'Z')
    ensures Lower(s) == s
  {
    if s != [] {
      LowerUnchanged(s[1..]);
    }
  }

  /** `lower()` of a string, checked character by character. */
  lemma LowerOfLiteral(s: string, l: string)
    requires |s| == |l| && forall i :: 0 <= i < |s| ==> LowerChar(s[i]) == l[i]
    ensures Lower(s) == l
  {
    forall i | 0 <= i < |s| ensures Lower(s)[i] == l[i] {
      LowerAt(s, i);
    }
  }

  /** Lower-casing after upper-casing forgets the upper-casing. */
  lemma {:induction false} LowerUpper(s: string)
    ensures Lower(Upper(s)) == Lower(s)
  {
    if s != [] {
      LowerUpper(s[1..]);
      assert Upper(s)[1..] == Upper(s[1..]);
    }
  }

  lemma {:induction false} LowerSlices(s: string, i: nat, j: nat)
    requires i <= j <= |s|
    ensures Lower(s[i..j]) == Lower(s)[i..j]
  {
    var a, b := Lower(s[i..j]), Lower(s)[i..j];
    forall k | 0 <= k < j - i ensures a[k] == b[k] {
      LowerAt(s[i..j], k);
      LowerAt(s, i + k);
    }
  }

  lemma {:induction false} StripLeftLower(s: string)
    ensures StripLeft(Lower(s)) == Lower(StripLeft(s))
  {
    if s != [] {
      StripLeftLower(s[1..]);
    }
  }

  lemma {:induction false} LowerAppend(a: string, b: string)
    ensures Lower(a + b) == Lower(a) + Lower(b)
  {
    if a != [] {
      LowerAppend(a[1..], b);
      assert (a + b)[1..] == a[1..] + b;
    } else {
      assert a + b == b;
    }
  }

  lemma {:induction false} StripRightLower(s: string)
    ensures StripRight(Lower(s)) == Lower(StripRight(s))
    decreases |s|
  {
    if s != [] {
      var n := |s|;
      var init := s[..n - 1];
      assert s == init + [s[n - 1]];
      LowerAppend(init, [s[n - 1]]);
      var lo := Lower(s);
      assert lo[..n - 1] == Lower(init);
      if IsSpace(s[n - 1]) {
        StripRightLower(init);
      }
    }
  }

  /** `strip()` and `lower()` commute: lower-casing never creates or removes white space. */
  lemma StripLowerCommute(s: string)
    ensures Lower(Strip(s)) == Strip(Lower(s))
  {
    StripLeftLower(s);
    StripRightLower(StripLeft(s));
  }

  /** Python's `s.startswith(p)`. */
  predicate StartsWith(s: string, p: string) {
    |p| <= |s| && s[..|p|] == p
  }

  /** `sub` occurs in `s` starting at position `i`. */
  predicate OccursAt(s: string, sub: string, i: int) {
    0 <= i <= |s| - |sub| && s[i..i + |sub|] == sub
  }

  /** Python's `sub in s`. */
  predicate Contains(s: string, sub: string)
    decreases |s|
  {
    StartsWith(s, sub) || (|s| > 0 && Contains(s[1..], sub))
  }

  /** The substring test holds exactly when `sub` occurs at some position of `s`. */
  lemma {:induction false} ContainsIff(s: string, sub: string)
    ensures Contains(s, sub) <==> exists i :: OccursAt(s, sub, i)
    decreases |s|
  {
    if StartsWith(s, sub) {
      assert OccursAt(s, sub, 0);
    }
    if OccursAt(s, sub, 0) {
      assert StartsWith(s, sub);
    }
    if |s| > 0 {
      ContainsIff(s[1..], sub);
      if exists i :: OccursAt(s, sub, i) {
        var i :| OccursAt(s, sub, i);
        if i > 0 {
          assert OccursAt(s[1..], sub, i - 1);
        }
      }
      if Contains(s[1..], sub) {
        var i :| OccursAt(s[1..], sub, i);
        assert OccursAt(s, sub, i + 1);
      }
    }
  }

  /** Every character of a substring occurs in the string that contains it. */
  lemma {:induction false} ContainedChar(s: string, sub: string, c: char)
    requires c in sub
    ensures Contains(s, sub) ==> c in s
    decreases |s|
  {
    if StartsWith(s, sub) {
      var k :| 0 <= k < |sub| && sub[k] == c;
      assert s[k] == c;
    } else if |s| > 0 {
      ContainedChar(s[1..], sub, c);
    }
  }

  /** Python's `s[:n]`. */
  function Take(s: string, n: nat): (r: string)
    ensures |r| == if |s| <= n then |s| else n
    ensures StartsWith(s, r)
  {
    if |s| <= n then s else s[..n]
  }

  /** Python's `s.split(sep)` for a one-character separator: never empty, and no piece
      holds the separator. */
  function Split(s: string, sep: char): (parts: seq<string>)
    ensures |parts| >= 1
    ensures forall k :: 0 <= k < |parts| ==> sep !in parts[k]
  {
    if s == [] then [[]]
    else
      var rest := Split(s[1..], sep);
      if s[0] == sep then [[]] + rest else [[s[0]] + rest[0]] + rest[1..]
  }

  /** Python's `sep.join(parts)`. */
  function Join(parts: seq<string>, sep: string): string {
    if |parts| == 0 then []
    else if |parts| == 1 then parts[0]
    else parts[0] + sep + Join(parts[1..], sep)
  }

  lemma JoinCons(p: string, parts: seq<string>, sep: string)
    requires parts != []
    ensures Join([p] + parts, sep) == p + sep + Join(parts, sep)
  {
    assert ([p] + parts)[1..] == parts;
  }

  /** Joining the pieces of a split puts the string back together. */
  lemma {:induction false} JoinSplit(s: string, sep: char)
    ensures Join(Split(s, sep), [sep]) == s
  {
    if s != [] {
      var rest := Split(s[1..], sep);
      JoinSplit(s[1..], sep);
      if s[0] == sep {
        JoinCons([], rest, [sep]);
      } else if |rest| > 1 {
        JoinCons([s[0]] + rest[0], rest[1..], [sep]);
        JoinCons(rest[0], rest[1..], [sep]);
        assert [rest[0]] + rest[1..] == rest;
      }
    }
  }

  /** Splitting around one separator splits each side independently. */
  lemma {:induction false} SplitAround(a: string, b: string, sep: char)
    ensures Split(a + [sep] + b, sep) == Split(a, sep) + Split(b, sep)
  {
    if a == [] {
      assert a + [sep] + b == [sep] + b;
      assert ([sep] + b)[1..] == b;
    } else {
      SplitAround(a[1..], b, sep);
      assert (a + [sep] + b)[1..] == a[1..] + [sep] + b;
    }
  }

  /** A string without the separator splits into itself alone. */
  lemma {:induction false} SplitNoSeparator(s: string, sep: char)
    requires sep !in s
    ensures Split(s, sep) == [s]
  {
    if s != [] {
      SplitNoSeparator(s[1..], sep);
      assert [s[0]] + s[1..] == s;
    }
  }

  /** Splitting a join gives back the pieces, provided no piece holds the separator. */
  lemma {:induction false} SplitJoin(parts: seq<string>, sep: char)
    requires parts != []
    requires forall k :: 0 <= k < |parts| ==> sep !in parts[k]
    ensures Split(Join(parts, [sep]), sep) == parts
  {
    if |parts| == 1 {
      SplitNoSeparator(parts[0], sep);
    } else {
      SplitJoin(parts[1..], sep);
      SplitNoSeparator(parts[0], sep);
      SplitAround(parts[0], Join(parts[1..], [sep]), sep);
      assert [parts[0]] + parts[1..] == parts;
    }
  }

  /** The first piece of a split keeps any prefix of the string that holds no separator. */
  lemma {:induction false} SplitFirstKeepsPrefix(s: string, sep: char, pre: string)
    requires StartsWith(s, pre) && sep !in pre
    ensures StartsWith(Split(s, sep)[0], pre)
  {
    if pre != [] {
      assert s[0] == pre[0];
      assert s[1..][..|pre| - 1] == pre[1..];
      SplitFirstKeepsPrefix(s[1..], sep, pre[1..]);
    }
  }

  /** Where the `k`-th piece starts in `sep.join(parts)`. */
  function JoinOffset(parts: seq<string>, sep: string, k: nat): nat
    requires k <= |parts|
  {
    if k == 0 then 0 else |parts[0]| + |sep| + JoinOffset(parts[1..], sep, k - 1)
  }

  lemma JoinOffsetTail(parts: seq<string>, sep: string, k: nat)
    requires 0 < k <= |parts|
    ensures JoinOffset(parts, sep, k) == |parts[0]| + |sep| + JoinOffset(parts[1..], sep, k - 1)
  {
  }

  /** A slice past a prefix is the matching slice of the rest. */
  lemma SliceAfterPrefix(a: string, t: string, i: nat, j: nat)
    requires i <= j <= |t|
    ensures (a + t)[|a| + i..|a| + j] == t[i..j]
  {
    assert forall m :: 0 <= m < j - i ==> (a + t)[|a| + i..|a| + j][m] == t[i..j][m];
  }

  /** `sep.join(parts)` holds every piece, in order, at its offset. */
  lemma {:induction false} JoinOccurs(parts: seq<string>, sep: string, k: nat)
    requires k < |parts|
    ensures OccursAt(Join(parts, sep), parts[k], JoinOffset(parts, sep, k))
  {
    if k > 0 {
      var tail := Join(parts[1..], sep);
      var whole := Join(parts, sep);
      assert whole == parts[0] + sep + tail;
      JoinOccurs(parts[1..], sep, k - 1);
      var o := JoinOffset(parts[1..], sep, k - 1);
      var d := |parts[0]| + |sep|;
      JoinOffsetTail(parts, sep, k);
      assert parts[1..][k - 1] == parts[k];
      SliceAfterPrefix(parts[0] + sep, tail, o, o + |parts[k]|);
    }
  }

  /** Each piece but the last is followed by the separator. */
  lemma {:induction false} JoinSeparates(parts: seq<string>, sep: string, k: nat)
    requires k + 1 < |parts|
    ensures OccursAt(Join(parts, sep), sep, JoinOffset(parts, sep, k) + |parts[k]|)
  {
    var tail := Join(parts[1..], sep);
    var whole := Join(parts, sep);
    assert whole == parts[0] + sep + tail;
    if k > 0 {
      JoinSeparates(parts[1..], sep, k - 1);
      var e := JoinOffset(parts[1..], sep, k - 1) + |parts[k]|;
      var d := |parts[0]| + |sep|;
      JoinOffsetTail(parts, sep, k);
      assert parts[1..][k - 1] == parts[k];
      SliceAfterPrefix(parts[0] + sep, tail, e, e + |sep|);
    }
  }

  /** The last piece ends the joined string. */
  lemma {:induction false} JoinEnds(parts: seq<string>, sep: string)
    requires parts != []
    ensures JoinOffset(parts, sep, |parts| - 1) + |parts[|parts| - 1]| == |Join(parts, sep)|
  {
    if |parts| > 1 {
      JoinEnds(parts[1..], sep);
      JoinOffsetTail(parts, sep, |parts| - 1);
    }
  }
}
