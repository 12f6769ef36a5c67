/**
 * The handful of Python string operations the analyzer relies on:
 * `p in s`, `sep.join(parts)`, `s.strip()`, `s[0].upper()`,
 * `s.capitalize()` and `str(n)` for an integer `n`.
 */
module Text {

  // ---------------------------------------------------------------------------
  // Substring test: Python's `p in s`
  // ---------------------------------------------------------------------------

  /** `s.startswith(p)`. */
  predicate StartsWith(s: string, p: string)
  {
    |p| <= |s| && s[..|p|] == p
  }

  /** `s.endswith(p)`. */
  predicate EndsWith(s: string, p: string)
  {
    |p| <= |s| && s[|s| - |p|..] == p
  }

  /** Two texts split at their first `c` give back the same parts. */
  lemma SplitAtFirst(x1: string, r1: string, x2: string, r2: string, c: char)
    requires c !in x1 && c !in x2 && x1 + [c] + r1 == x2 + [c] + r2
    ensures x1 == x2 && r1 == r2
  {
    var s := x1 + [c] + r1;
    assert s[|x1|] == c;
    assert (x2 + [c] + r2)[|x2|] == c;
    assert |x1| == |x2|;
    assert x1 == s[..|x1|];
    assert r1 == s[|x1| + 1..];
  }

  /** A prefix survives appending text on the right. */
  lemma StartsExtendRight(x: string, y: string, p: string)
    ensures StartsWith(x, p) ==> StartsWith(x + y, p)
  {
    if StartsWith(x, p) {
      assert (x + y)[..|p|] == x[..|p|];
    }
  }

  /** A string ends with its last part and starts with its first. */
  lemma EndsAndStarts(a: string, b: string)
    ensures EndsWith(a + b, b) && StartsWith(a + b, a)
  {
    assert (a + b)[|a|..] == b;
    assert (a + b)[..|a|] == a;
  }

  /** `p` occurs in `s` starting at index `i`. */
  predicate OccursAt(s: string, p: string, i: int)
  {
    0 <= i && i + |p| <= |s| && s[i..i + |p|] == p
  }

  /** Python's `p in s` on strings: `p` occurs in `s` as a contiguous block. */
  predicate Contains(s: string, p: string)
  {
    exists i | 0 <= i <= |s| - |p| :: OccursAt(s, p, i)
  }

  /** A block placed between any two strings is found. */
  lemma ContainsMiddle(a: string, p: string, b: string)
    ensures Contains(a + p + b, p)
  {
    assert (a + p + b)[|a|..|a| + |p|] == p;
    assert OccursAt(a + p + b, p, |a|);
  }

  /** A string starts with itself wherever it is followed. */
  lemma ContainsPrefix(p: string, b: string)
    ensures Contains(p + b, p)
  {
    assert (p + b)[0..|p|] == p;
    assert OccursAt(p + b, p, 0);
  }

  /** A string ends with itself whatever precedes it. */
  lemma ContainsSuffix(a: string, p: string)
    ensures Contains(a + p, p)
  {
    assert (a + p)[|a|..|a| + |p|] == p;
    assert OccursAt(a + p, p, |a|);
  }

  /** An occurrence survives appending text on the right. */
  lemma ContainsExtendRight(x: string, y: string, p: string)
    ensures Contains(x, p) ==> Contains(x + y, p)
  {
    if Contains(x, p) {
      var i :| 0 <= i <= |x| - |p| && OccursAt(x, p, i);
      assert (x + y)[i..i + |p|] == x[i..i + |p|];
      assert OccursAt(x + y, p, i);
    }
  }

  /** The first part of a concatenation occurs at its start. */
  lemma OccursAtStart(x: string, y: string)
    ensures OccursAt(x + y, x, 0)
  {
    assert (x + y)[0..|x|] == x;
  }

  /** The last part of a concatenation occurs right after the first. */
  lemma OccursAtEnd(x: string, y: string)
    ensures OccursAt(x + y, y, |x|)
  {
    assert (x + y)[|x|..|x| + |y|] == y;
  }

  /** An occurrence keeps its index when text is appended on the right. */
  lemma OccursAtExtendRight(x: string, y: string, p: string, i: int)
    requires OccursAt(x, p, i)
    ensures OccursAt(x + y, p, i)
  {
    assert (x + y)[i..i + |p|] == x[i..i + |p|];
  }

  /** An occurrence inside an occurrence sits at the sum of the two offsets. */
  lemma OccursAtTransitive(s: string, q: string, p: string, i: int, j: int)
    requires OccursAt(s, q, i) && OccursAt(q, p, j)
    ensures OccursAt(s, p, i + j)
  {
    assert q == s[i..i + |q|];
    forall m | 0 <= m < |p|
      ensures s[i + j..i + j + |p|][m] == p[m]
    {
      assert p[m] == q[j + m] == s[i + j + m];
    }
  }


  /** Every character of a pattern that occurs in `s` is a character of `s`. */
  lemma OccurrenceHasChar(s: string, p: string, k: nat)
    requires k < |p|
    ensures Contains(s, p) ==> p[k] in s
  {
    if Contains(s, p) {
      var i :| 0 <= i <= |s| - |p| && OccursAt(s, p, i);
      assert s[i + k] == s[i..i + |p|][k];
    }
  }

  /**
   * An occurrence of `p` in `x + y` that is not inside `x` or inside `y`
   * covers the first character of `y`; so when that character is not in `p`,
   * every occurrence lies on one side of the cut.
   */
  lemma SplitAtChar(x: string, y: string, p: string)
    requires y != []
    ensures Contains(x + y, p) ==> y[0] in p || Contains(x, p) || Contains(y, p)
  {
    var s := x + y;
    if Contains(s, p) {
      var i :| 0 <= i <= |s| - |p| && OccursAt(s, p, i);
      if i + |p| <= |x| {
        assert x[i..i + |p|] == s[i..i + |p|];
        assert OccursAt(x, p, i);
      } else if i >= |x| {
        assert y[i - |x|..i - |x| + |p|] == s[i..i + |p|];
        assert OccursAt(y, p, i - |x|);
      } else {
        assert p[|x| - i] == s[i..i + |p|][|x| - i] == y[0];
      }
    }
  }

  /** A pattern missing one of its characters from `s` does not occur in `s`. */
  lemma Lacks(s: string, p: string, k: nat)
    requires k < |p| && p[k] !in s
    ensures !Contains(s, p)
  {
    OccurrenceHasChar(s, p, k);
  }

  /**
   * Extends an absence across a cut: `p` is not in `x`, the piece `y` misses
   * one of its characters, and the cut sits before a character `p` lacks.
   */
  lemma AbsentAcrossCut(x: string, y: string, p: string, k: nat)
    requires !Contains(x, p) && y != [] && y[0] !in p && k < |p| && p[k] !in y
    ensures !Contains(x + y, p)
  {
    Lacks(y, p, k);
    SplitAtChar(x, y, p);
  }

  // ---------------------------------------------------------------------------
  // `sep.join(parts)`
  // ---------------------------------------------------------------------------

  /** Python's `sep.join(parts)`: the parts' lengths plus one separator between each pair. */
  function Join(parts: seq<string>, sep: string): (r: string)
    ensures |r| == TotalLength(parts) + (if parts == [] then 0 else (|parts| - 1) * |sep|)
    decreases |parts|
  {
    if parts == [] then ""
    else if |parts| == 1 then parts[0]
    else parts[0] + sep + Join(parts[1..], sep)
  }

  /** Three parts joined: each pair separated by one `sep`. */
  lemma JoinThree(a: string, b: string, c: string, sep: string)
    ensures Join([a, b, c], sep) == a + sep + b + sep + c
  {
    assert [a, b, c][1..] == [b, c];
    assert [b, c][1..] == [c];
    assert Join([c], sep) == c;
  }

  /** Appending a part to a list adds one separator and that part at the end. */
  lemma {:induction false} JoinSnoc(parts: seq<string>, x: string, sep: string)
    ensures Join(parts + [x], sep) == if parts == [] then x else Join(parts, sep) + sep + x
    decreases |parts|
  {
    if |parts| == 1 {
      assert parts + [x] == [parts[0], x];
      assert [parts[0], x][1..] == [x];
    } else if |parts| > 1 {
      assert (parts + [x])[1..] == parts[1..] + [x];
      JoinSnoc(parts[1..], x, sep);
    }
  }

  function TotalLength(parts: seq<string>): nat
    decreases |parts|
  {
    if parts == [] then 0 else |parts[0]| + TotalLength(parts[1..])
  }

  /** Appending a part adds its length. */
  lemma {:induction false} TotalLengthSnoc(parts: seq<string>, y: string)
    ensures TotalLength(parts + [y]) == TotalLength(parts) + |y|
    decreases |parts|
  {
    if parts == [] {
      assert [] + [y] == [y];
    } else {
      assert (parts + [y])[1..] == parts[1..] + [y];
      TotalLengthSnoc(parts[1..], y);
    }
  }

  /** `r` is the parts laid end to end: each part starts where the ones before it end, and nothing follows the last. */
  predicate Consecutive(r: string, parts: seq<string>)
  {
    |r| == TotalLength(parts)
    && forall k :: 0 <= k < |parts| ==> OccursAt(r, parts[k], TotalLength(parts[..k]))
  }

  lemma ConsecutiveOne(a: string)
    ensures Consecutive(a, [a])
  {
    assert [a][..0] == [];
    assert a[0..|a|] == a;
  }

  /** Appending text appends it as the next part. */
  lemma ConsecutiveSnoc(x: string, parts: seq<string>, y: string)
    requires Consecutive(x, parts)
    ensures Consecutive(x + y, parts + [y])
  {
    TotalLengthSnoc(parts, y);
    forall k | 0 <= k < |parts| + 1
      ensures OccursAt(x + y, (parts + [y])[k], TotalLength((parts + [y])[..k]))
    {
      if k < |parts| {
        assert (parts + [y])[..k] == parts[..k];
        assert (parts + [y])[k] == parts[k];
        OccursAtExtendRight(x, y, parts[k], TotalLength(parts[..k]));
      } else {
        assert (parts + [y])[..k] == parts;
        OccursAtEnd(x, y);
      }
    }
  }

  /** Five strings concatenated are those five parts laid end to end. */
  lemma ConsecutiveFive(a: string, b: string, c: string, d: string, e: string)
    ensures Consecutive(a + b + c + d + e, [a, b, c, d, e])
  {
    ConsecutiveOne(a);
    ConsecutiveSnoc(a, [a], b);
    assert [a] + [b] == [a, b];
    ConsecutiveSnoc(a + b, [a, b], c);
    assert [a, b] + [c] == [a, b, c];
    ConsecutiveSnoc(a + b + c, [a, b, c], d);
    assert [a, b, c] + [d] == [a, b, c, d];
    ConsecutiveSnoc(a + b + c + d, [a, b, c, d], e);
    assert [a, b, c, d] + [e] == [a, b, c, d, e];
  }

  /** Ten strings concatenated are those ten parts laid end to end. */
  lemma ConsecutiveTen(a: string, b: string, c: string, d: string, e: string,
                       f: string, g: string, h: string, i: string, j: string)
    ensures Consecutive(a + b + c + d + e + f + g + h + i + j, [a, b, c, d, e, f, g, h, i, j])
  {
    var x := a + b + c + d + e;
    ConsecutiveFive(a, b, c, d, e);
    ConsecutiveSnoc(x, [a, b, c, d, e], f);
    assert [a, b, c, d, e] + [f] == [a, b, c, d, e, f];
    ConsecutiveSnoc(x + f, [a, b, c, d, e, f], g);
    assert [a, b, c, d, e, f] + [g] == [a, b, c, d, e, f, g];
    ConsecutiveSnoc(x + f + g, [a, b, c, d, e, f, g], h);
    assert [a, b, c, d, e, f, g] + [h] == [a, b, c, d, e, f, g, h];
    ConsecutiveSnoc(x + f + g + h, [a, b, c, d, e, f, g, h], i);
    assert [a, b, c, d, e, f, g, h] + [i] == [a, b, c, d, e, f, g, h, i];
    ConsecutiveSnoc(x + f + g + h + i, [a, b, c, d, e, f, g, h, i], j);
    assert [a, b, c, d, e, f, g, h, i] + [j] == [a, b, c, d, e, f, g, h, i, j];
  }

  /** Where part `k` starts in the joined text: after each earlier part and its separator. */
  function JoinOffset(parts: seq<string>, sep: string, k: nat): nat
    requires k <= |parts|
    decreases k
  {
    if k == 0 then 0 else |parts[0]| + |sep| + JoinOffset(parts[1..], sep, k - 1)
  }

  /** The offset of part `k` is the earlier parts' lengths plus one separator for each of them. */
  lemma {:induction false} JoinOffsetValue(parts: seq<string>, sep: string, k: nat)
    requires k <= |parts|
    ensures JoinOffset(parts, sep, k) == TotalLength(parts[..k]) + k * |sep|
    decreases k
  {
    if k > 0 {
      JoinOffsetValue(parts[1..], sep, k - 1);
      PrefixLength(parts, k);
      MulStep(k, |sep|);
    } else {
      assert parts[..0] == [];
    }
  }

  /** Part `k` occurs in the joined text at its offset. */
  lemma {:induction false} JoinPartAt(parts: seq<string>, sep: string, k: nat)
    requires k < |parts|
    ensures OccursAt(Join(parts, sep), parts[k], JoinOffset(parts, sep, k))
    decreases |parts|
  {
    if |parts| == 1 {
      assert Join(parts, sep)[0..|parts[0]|] == parts[0];
    } else if k == 0 {
      OccursAtStart(parts[0], sep);
      OccursAtExtendRight(parts[0] + sep, Join(parts[1..], sep), parts[0], 0);
    } else {
      var rest := parts[1..];
      JoinPartAt(rest, sep, k - 1);
      assert Join(parts, sep) == parts[0] + sep + Join(rest, sep);
      OccursAtEnd(parts[0] + sep, Join(rest, sep));
      OccursAtTransitive(Join(parts, sep), Join(rest, sep), rest[k - 1], |parts[0]| + |sep|,
                         JoinOffset(rest, sep, k - 1));
      assert rest[k - 1] == parts[k];
    }
  }

  /** The separator stands right after part `k` whenever another part follows. */
  lemma {:induction false} JoinSepAt(parts: seq<string>, sep: string, k: nat)
    requires k + 1 < |parts|
    ensures OccursAt(Join(parts, sep), sep, JoinOffset(parts, sep, k) + |parts[k]|)
    decreases |parts|
  {
    var rest := parts[1..];
    assert Join(parts, sep) == parts[0] + sep + Join(rest, sep);
    if k == 0 {
      OccursAtEnd(parts[0], sep);
      OccursAtExtendRight(parts[0] + sep, Join(rest, sep), sep, |parts[0]|);
    } else {
      JoinSepAt(rest, sep, k - 1);
      OccursAtEnd(parts[0] + sep, Join(rest, sep));
      OccursAtTransitive(Join(parts, sep), Join(rest, sep), sep, |parts[0]| + |sep|,
                         JoinOffset(rest, sep, k - 1) + |rest[k - 1]|);
      assert rest[k - 1] == parts[k];
    }
  }

  /** The first `k` parts are the first part and the tail's first `k - 1`. */
  lemma PrefixLength(parts: seq<string>, k: nat)
    requires 1 <= k <= |parts|
    ensures TotalLength(parts[..k]) == |parts[0]| + TotalLength(parts[1..][..k - 1])
  {
    assert parts[..k][1..] == parts[1..][..k - 1];
  }

  lemma MulStep(k: nat, n: nat)
    requires 1 <= k
    ensures (k - 1) * n + n == k * n
  {
  }

  /**
   * `r` reads as `parts` joined by `sep`: part `k` stands after the earlier
   * parts and one `sep` for each of them, and `sep` follows every part but
   * the last.
   */
  predicate JoinedBy(r: string, parts: seq<string>, sep: string)
  {
    (forall k :: 0 <= k < |parts| ==>
       OccursAt(r, parts[k], TotalLength(parts[..k]) + k * |sep|)) &&
    (forall k :: 0 <= k < |parts| - 1 ==>
       OccursAt(r, sep, TotalLength(parts[..k]) + k * |sep| + |parts[k]|))
  }

  /** Every part occurs in the joined text, in list order, with the separator filling each gap. */
  lemma JoinPartsInOrder(parts: seq<string>, sep: string)
    ensures JoinedBy(Join(parts, sep), parts, sep)
  {
    forall k | 0 <= k < |parts|
      ensures OccursAt(Join(parts, sep), parts[k], TotalLength(parts[..k]) + k * |sep|)
    {
      JoinPartAtValue(parts, sep, k);
    }
    forall k | 0 <= k < |parts| - 1
      ensures OccursAt(Join(parts, sep), sep, TotalLength(parts[..k]) + k * |sep| + |parts[k]|)
    {
      JoinSepAtValue(parts, sep, k);
    }
  }

  /** A text that reads as joined parts contains each part. */
  lemma JoinedByContains(r: string, parts: seq<string>, sep: string, i: nat)
    requires JoinedBy(r, parts, sep) && i < |parts|
    ensures Contains(r, parts[i])
  {
    assert OccursAt(r, parts[i], TotalLength(parts[..i]) + i * |sep|);
  }

  /** `JoinPartAt` with the offset in closed form. */
  lemma JoinPartAtValue(parts: seq<string>, sep: string, k: nat)
    requires k < |parts|
    ensures OccursAt(Join(parts, sep), parts[k], TotalLength(parts[..k]) + k * |sep|)
  {
    JoinPartAt(parts, sep, k);
    JoinOffsetValue(parts, sep, k);
  }

  /** `JoinSepAt` with the offset in closed form. */
  lemma JoinSepAtValue(parts: seq<string>, sep: string, k: nat)
    requires k + 1 < |parts|
    ensures OccursAt(Join(parts, sep), sep, TotalLength(parts[..k]) + k * |sep| + |parts[k]|)
  {
    JoinSepAt(parts, sep, k);
    JoinOffsetValue(parts, sep, k);
  }

  // ---------------------------------------------------------------------------
  // `s.strip()`
  // ---------------------------------------------------------------------------

  /** The characters for which Python's `str.isspace` holds, the ones `str.strip()` removes. */
  predicate IsSpace(c: char)
  {
    ('\t' <= c <= '\r') || ('\U{1C}' <= c <= ' ') || c == '\U{85}' || c == '\U{A0}'
    || c == '\U{1680}' || ('\U{2000}' <= c <= '\U{200A}') || c == '\U{2028}' || c == '\U{2029}'
    || c == '\U{202F}' || c == '\U{205F}' || c == '\U{3000}'
  }

  predicate AllSpace(s: string)
  {
    forall k :: 0 <= k < |s| ==> IsSpace(s[k])
  }

  /** Drops leading whitespace (`str.lstrip()`). */
  function TrimStart(s: string): (r: string)
    ensures |r| <= |s| && r == s[|s| - |r|..]
    ensures AllSpace(s[..|s| - |r|])
    ensures r != [] ==> !IsSpace(r[0])
    decreases |s|
  {
    if s != [] && IsSpace(s[0]) then
      var r := TrimStart(s[1..]);
      assert s[..|s| - |r|] == [s[0]] + s[1..][..|s[1..]| - |r|];
      r
    else s
  }

  /** Drops trailing whitespace (`str.rstrip()`). */
  function TrimEnd(s: string): (r: string)
    ensures |r| <= |s| && r == s[..|r|]
    ensures AllSpace(s[|r|..])
    ensures r != [] ==> !IsSpace(r[|r| - 1])
    decreases |s|
  {
    if s != [] && IsSpace(s[|s| - 1]) then
      var r := TrimEnd(s[..|s| - 1]);
      assert s[|r|..] == s[..|s| - 1][|r|..] + [s[|s| - 1]];
      r
    else s
  }

  /** Python's `s.strip()`. */
  function Strip(s: string): string
  {
    TrimEnd(TrimStart(s))
  }

  /**
   * `r` is what stripping `s` leaves when cut at `i` and `j`: the block
   * `s[i..j]`, with only whitespace before and after it, neither starting nor
   * ending with whitespace.
   */
  predicate StrippedAt(r: string, s: string, i: int, j: int)
  {
    0 <= i <= j <= |s| && r == s[i..j]
    && AllSpace(s[..i]) && AllSpace(s[j..])
    && (r != [] ==> !IsSpace(r[0]) && !IsSpace(r[|r| - 1]))
  }

  /** `r` is what stripping `s` leaves, at some cut. */
  ghost predicate IsStripOf(r: string, s: string)
  {
    exists i, j :: StrippedAt(r, s, i, j)
  }

  /**
   * A suffix `t` of `s` after only whitespace, not starting with whitespace,
   * and a prefix `r` of `t` before only whitespace, not ending with it:
   * `r` is `s` cut at those two places.
   */
  lemma CutsOfTrims(s: string, t: string, r: string)
    requires |t| <= |s| && t == s[|s| - |t|..] && AllSpace(s[..|s| - |t|]) && (t != [] ==> !IsSpace(t[0]))
    requires |r| <= |t| && r == t[..|r|] && AllSpace(t[|r|..]) && (r != [] ==> !IsSpace(r[|r| - 1]))
    ensures StrippedAt(r, s, |s| - |t|, |s| - |t| + |r|)
  {
    var i := |s| - |t|;
    SliceOfSuffix(s, i, |r|);
    assert t[|r|..] == s[i + |r|..];
    assert r != [] ==> r[0] == t[0];
  }

  /** The stripped text is a contiguous block of `s` with only whitespace around it and none at its edges. */
  lemma StripSpec(s: string)
    ensures IsStripOf(Strip(s), s)
  {
    var t := TrimStart(s);
    var r := TrimEnd(t);
    var i, j := |s| - |t|, |s| - |t| + |r|;
    CutsOfTrims(s, t, r);
    assert StrippedAt(r, s, i, j);
    assert Strip(s) == r;
  }

  /** Slicing a suffix is slicing the original further along. */
  lemma SliceOfSuffix(s: string, i: nat, n: nat)
    requires i + n <= |s|
    ensures s[i..][..n] == s[i..i + n] && s[i..][n..] == s[i + n..]
  {
  }

  /** Stripping leaves nothing exactly when the string is all whitespace. */
  lemma StripEmptyIff(s: string)
    ensures Strip(s) == "" <==> AllSpace(s)
  {
    var t := TrimStart(s);
    var i := |s| - |t|;
    var r := TrimEnd(t);
    assert t != [] ==> t[0] == s[i];
    assert forall m :: 0 <= m < i ==> s[..i][m] == s[m];
    assert forall m :: i <= m < |s| ==> t[m - i] == s[m];
    assert forall m :: |r| <= m < |t| ==> t[|r|..][m - |r|] == t[m];
  }

  // ---------------------------------------------------------------------------
  // Case mapping (ASCII letters only)
  // ---------------------------------------------------------------------------

  function UpperChar(c: char): char
  {
    if 'a' <= c <= 'z' then (c as int - 32) as char else c
  }

  function LowerChar(c: char): char
  {
    if 'A' <= c <= 'Z' then (c as int + 32) as char else c
  }

  function LowerAll(s: string): (r: string)
    ensures |r| == |s| && forall k :: 0 <= k < |s| ==> r[k] == LowerChar(s[k])
    decreases |s|
  {
    if s == [] then [] else [LowerChar(s[0])] + LowerAll(s[1..])
  }

  /** `s[0].upper() + s[1:] if s else s`: only the first character can change. */
  function CapitalizeFirst(s: string): (r: string)
    ensures |r| == |s|
    ensures s != [] ==> r[0] == UpperChar(s[0]) && r[1..] == s[1..]
  {
    if s == [] then s else [UpperChar(s[0])] + s[1..]
  }

  /** Python's `s.capitalize()`: first character upper case, the rest lower case. */
  function Capitalize(s: string): (r: string)
    ensures |r| == |s|
    ensures s != [] ==> r[0] == UpperChar(s[0])
    ensures forall k :: 1 <= k < |s| ==> r[k] == LowerChar(s[k])
  {
    if s == [] then s else [UpperChar(s[0])] + LowerAll(s[1..])
  }

  // ---------------------------------------------------------------------------
  // `str(n)` / `f"{n}"` for an integer
  // ---------------------------------------------------------------------------

  predicate IsDigit(c: char)
  {
    '0' <= c <= '9'
  }

  function DigitChar(d: int): (c: char)
    requires 0 <= d < 10
    ensures IsDigit(c)
  {
    ('0' as int + d) as char
  }

  /** Decimal digits of `n`, most significant first, without leading zeros. */
  function NatToString(n: nat): (r: string)
    ensures |r| >= 1 && forall k :: 0 <= k < |r| ==> IsDigit(r[k])
    ensures r[0] == '0' ==> n == 0
    decreases n
  {
    if n < 10 then [DigitChar(n)] else NatToString(n / 10) + [DigitChar(n % 10)]
  }

  /** Python's `str(n)`: a minus sign and the digits of `-n` when `n` is negative. */
  function IntToString(n: int): (r: string)
    ensures r != [] && (r[0] == '-' <==> n < 0)
    ensures forall k :: 0 <= k < |r| ==> IsDigit(r[k]) || (k == 0 && n < 0)
  {
    if n < 0 then "-" + NatToString(-n) else NatToString(n)
  }

  /** Reads a decimal numeral back (the inverse of `NatToString`). */
  function ParseNat(s: string): nat
    requires forall k :: 0 <= k < |s| ==> IsDigit(s[k])
    decreases |s|
  {
    if s == [] then 0
    else
      assert IsDigit(s[|s| - 1]);
      10 * ParseNat(s[..|s| - 1]) + (s[|s| - 1] as int - '0' as int)
  }

  lemma {:induction false} ParseNatToString(n: nat)
    ensures ParseNat(NatToString(n)) == n
    decreases n
  {
    if n >= 10 {
      var r := NatToString(n);
      assert r[..|r| - 1] == NatToString(n / 10);
      ParseNatToString(n / 10);
    }
  }

  lemma NatToStringInjective(a: nat, b: nat)
    requires NatToString(a) == NatToString(b)
    ensures a == b
  {
    ParseNatToString(a);
    ParseNatToString(b);
  }

  /** Different integers print differently. */
  lemma IntToStringInjective(m: int, n: int)
    requires IntToString(m) == IntToString(n)
    ensures m == n
  {
    if m < 0 {
      var sm, sn := NatToString(-m), NatToString(-n);
      assert ("-" + sm)[1..] == sm && ("-" + sn)[1..] == sn;
      NatToStringInjective(-m, -n);
    } else {
      NatToStringInjective(m, n);
    }
  }

  /** A printed integer is digits after an optional minus sign, so it holds no '/'. */
  lemma IntToStringNoSlash(n: int)
    ensures forall k :: 0 <= k < |IntToString(n)| ==> IntToString(n)[k] != '/'
  {
    if n < 0 {
      var d := NatToString(-n);
      assert forall k :: 1 <= k < |IntToString(n)| ==> IntToString(n)[k] == d[k - 1];
    }
  }
}
