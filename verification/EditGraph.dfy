/**
  Longest common subsequences and the insert/delete distance, the reference the diff is
  measured against.

  The edit graph of two line sequences has a point (x, y) for every pair of positions, a
  unit-cost edge right (delete a[x]) and down (insert b[y]), and a free diagonal wherever
  a[x] == b[y]. The forward pass of the diff may run past the right or bottom edge, so the
  graph is extended: beyond the grid the unit edges go on and there are no diagonals.
 */
module EditGraph {
  import opened Common

  type Line = string

  /** Length of the longest common subsequence of a[..i] and b[..j]. */
  function Lcs(a: seq<Line>, b: seq<Line>, i: nat, j: nat): nat
    requires i <= |a| && j <= |b|
    decreases i + j
  {
    if i == 0 || j == 0 then 0
    else if a[i - 1] == b[j - 1] then Lcs(a, b, i - 1, j - 1) + 1
    else Max(Lcs(a, b, i - 1, j), Lcs(a, b, i, j - 1))
  }

  /** One more line on either side adds nothing or one. */
  lemma {:induction false} LcsGrows(a: seq<Line>, b: seq<Line>, i: nat, j: nat)
    requires i <= |a| && j <= |b|
    ensures i > 0 ==> Lcs(a, b, i - 1, j) <= Lcs(a, b, i, j) <= Lcs(a, b, i - 1, j) + 1
    ensures j > 0 ==> Lcs(a, b, i, j - 1) <= Lcs(a, b, i, j) <= Lcs(a, b, i, j - 1) + 1
    decreases i + j
  {
    if i > 0 && j > 0 {
      LcsGrows(a, b, i - 1, j);
      LcsGrows(a, b, i, j - 1);
    }
  }

  lemma {:induction false} LcsBound(a: seq<Line>, b: seq<Line>, i: nat, j: nat)
    requires i <= |a| && j <= |b|
    ensures Lcs(a, b, i, j) <= i && Lcs(a, b, i, j) <= j
    decreases i + j
  {
    if i > 0 && j > 0 {
      LcsBound(a, b, i - 1, j - 1);
      LcsGrows(a, b, i, j);
      LcsBound(a, b, i - 1, j);
      LcsBound(a, b, i, j - 1);
    }
  }

  /** Prefixes of equal lines count one for one. */
  lemma {:induction false} LcsEqualPrefix(a: seq<Line>, b: seq<Line>, pre: nat, j: nat)
    requires pre <= |a| && pre <= j <= |b| && a[..pre] == b[..pre]
    ensures Lcs(a, b, pre, j) == pre &&
            Lcs(b, a, j, pre) == pre
    decreases j
  {
    LcsBound(a, b, pre, j);
    LcsBound(b, a, j, pre);
    if j == pre {
      if pre > 0 {
        assert a[pre - 1] == a[..pre][pre - 1] == b[pre - 1];
        assert a[..pre - 1] == a[..pre][..pre - 1] == b[..pre - 1];
        LcsEqualPrefix(a, b, pre - 1, pre - 1);
      }
    } else {
      LcsEqualPrefix(a, b, pre, j - 1);
      LcsGrows(a, b, pre, j);
      LcsGrows(b, a, j, pre);
    }
  }

  /** Trimming a common prefix of length pre takes exactly pre off the common subsequence:
      a2 and b2 are what is left of a and b after it (possibly cut at the end). */
  lemma {:induction false} LcsTrimPrefix(a: seq<Line>, b: seq<Line>, a2: seq<Line>, b2: seq<Line>, pre: nat, i: nat, j: nat)
    requires pre + |a2| <= |a| && pre + |b2| <= |b| && a[..pre] == b[..pre]
    requires forall k :: 0 <= k < |a2| ==> a2[k] == a[pre + k]
    requires forall k :: 0 <= k < |b2| ==> b2[k] == b[pre + k]
    requires i <= |a2| && j <= |b2|
    ensures Lcs(a, b, pre + i, pre + j) == pre + Lcs(a2, b2, i, j)
    decreases i + j
  {
    hide Lcs;
    if i == 0 || j == 0 {
      LcsEqualPrefix(a, b, pre, pre + j);
      LcsEqualPrefix(b, a, pre, pre + i);
      LcsOfNothing(a2, b2, i, j);
    } else {
      LcsCorner(a, b, pre + i - 1, pre + j - 1);
      LcsCorner(a2, b2, i - 1, j - 1);
      assert a2[i - 1] == a[pre + (i - 1)] && b2[j - 1] == b[pre + (j - 1)];
      LcsTrimPrefix(a, b, a2, b2, pre, i - 1, j - 1);
      LcsTrimPrefix(a, b, a2, b2, pre, i - 1, j);
      LcsTrimPrefix(a, b, a2, b2, pre, i, j - 1);
    }
  }

  lemma LcsOfNothing(a: seq<Line>, b: seq<Line>, i: nat, j: nat)
    requires i <= |a| && j <= |b| && (i == 0 || j == 0)
    ensures Lcs(a, b, i, j) == 0
  {
  }

  /** Trimming a common suffix of length suf takes exactly suf off. */
  lemma {:induction false} LcsTrimSuffix(a: seq<Line>, b: seq<Line>, suf: nat)
    requires suf <= |a| && suf <= |b|
    requires forall i :: |a| - suf <= i < |a| ==> a[i] == b[|b| - |a| + i]
    ensures Lcs(a, b, |a|, |b|) == suf + Lcs(a, b, |a| - suf, |b| - suf)
  {
    if suf > 0 {
      LcsTrimSuffix(a, b, suf - 1);
      assert a[|a| - suf] == b[|b| - suf];
    }
  }

  /** The two sequences have a line in common. */
  predicate ShareLine(a: seq<Line>, b: seq<Line>)
  {
    exists l :: l in a && l in b
  }

  lemma {:induction false} LcsOfStrangers(a: seq<Line>, b: seq<Line>, i: nat, j: nat)
    requires i <= |a| && j <= |b| && !ShareLine(a, b)
    ensures Lcs(a, b, i, j) == 0
    decreases i + j
  {
    if i > 0 && j > 0 {
      assert a[i - 1] in a && b[j - 1] in b;
      LcsOfStrangers(a, b, i - 1, j);
      LcsOfStrangers(a, b, i, j - 1);
    }
  }

  lemma {:induction false} LcsMonotone(a: seq<Line>, b: seq<Line>, i: nat, j: nat, i': nat, j': nat)
    requires i <= i' <= |a| && j <= j' <= |b|
    ensures Lcs(a, b, i, j) <= Lcs(a, b, i', j')
    decreases i' + j'
  {
    if i < i' {
      LcsGrows(a, b, i', j');
      LcsMonotone(a, b, i, j, i' - 1, j');
    } else if j < j' {
      LcsGrows(a, b, i', j');
      LcsMonotone(a, b, i, j, i', j' - 1);
    }
  }

  /** There is no common subsequence exactly where there is no common line. */
  lemma NoCommonLine(a: seq<Line>, b: seq<Line>)
    ensures Lcs(a, b, |a|, |b|) >= 0
    ensures Lcs(a, b, |a|, |b|) == 0 <==> !ShareLine(a, b)
  {
    if ShareLine(a, b) {
      var l :| l in a && l in b;
      var i :| 0 <= i < |a| && a[i] == l;
      var j :| 0 <= j < |b| && b[j] == l;
      LcsMonotone(a, b, 0, 0, i, j);
      LcsMonotone(a, b, i + 1, j + 1, |a|, |b|);
    } else {
      LcsOfStrangers(a, b, |a|, |b|);
    }
  }

  // ------------------------------------------------------------ common ends

  /** Length of the longest common prefix. */
  function CommonPrefix(a: seq<Line>, b: seq<Line>): (n: nat)
    ensures n <= |a| && n <= |b|
  {
    if a == [] || b == [] || a[0] != b[0] then 0 else 1 + CommonPrefix(a[1..], b[1..])
  }

  /** Length of the longest common suffix. */
  function CommonSuffix(a: seq<Line>, b: seq<Line>): (n: nat)
    ensures n <= |a| && n <= |b|
  {
    if a == [] || b == [] || a[|a| - 1] != b[|b| - 1] then 0 else 1 + CommonSuffix(a[..|a| - 1], b[..|b| - 1])
  }

  /** What is left of a without the longest common prefix, and then without the longest common
      suffix of the rest. */
  function Middle(a: seq<Line>, b: seq<Line>): seq<Line>
  {
    var pre := CommonPrefix(a, b);
    var suf := CommonSuffix(a[pre..], b[pre..]);
    a[pre..|a| - suf]
  }

  lemma {:induction false} PrefixIs(a: seq<Line>, b: seq<Line>, n: nat)
    requires n <= |a| && n <= |b| && a[..n] == b[..n] && (n == |a| || n == |b| || a[n] != b[n])
    ensures CommonPrefix(a, b) == n == CommonPrefix(b, a)
    decreases n
  {
    if n > 0 {
      assert a[0] == a[..n][0] == b[..n][0] == b[0];
      assert a[1..][..n - 1] == a[..n][1..] == b[..n][1..] == b[1..][..n - 1];
      PrefixIs(a[1..], b[1..], n - 1);
    }
  }

  lemma {:induction false} SuffixIs(a: seq<Line>, b: seq<Line>, n: nat)
    requires n <= |a| && n <= |b| && Ending(a, n) == Ending(b, n)
    requires n == |a| || n == |b| || a[|a| - 1 - n] != b[|b| - 1 - n]
    ensures CommonSuffix(a, b) == n == CommonSuffix(b, a)
    decreases n
  {
    if n > 0 {
      EndingInit(a, n);
      EndingInit(b, n);
      hide Ending;
      SuffixIs(a[..|a| - 1], b[..|b| - 1], n - 1);
    }
  }

  function Ending(s: seq<Line>, n: nat): seq<Line>
    requires n <= |s|
  {
    s[|s| - n..]
  }

  lemma EndingIs(s: seq<Line>, n: nat)
    requires n <= |s|
    ensures Ending(s, n) == s[|s| - n..]
    ensures n < |s| ==> Ending(s, n + 1) == [s[|s| - 1 - n]] + Ending(s, n)
  {
  }

  lemma EndingInit(s: seq<Line>, n: nat)
    requires 0 < n <= |s|
    ensures s[|s| - 1] == Ending(s, n)[n - 1] && Ending(s[..|s| - 1], n - 1) == Ending(s, n)[..n - 1]
  {
  }

  /** Trimming until it stops leaves the middles. */
  lemma MiddleIs(a: seq<Line>, b: seq<Line>, pre: nat, suf: nat)
    requires pre + suf <= |a| && pre + suf <= |b|
    requires a[..pre] == b[..pre] && a[|a| - suf..] == b[|b| - suf..]
    requires pre == |a| || pre == |b| || a[pre] != b[pre]
    requires pre + suf == |a| || pre + suf == |b| || a[|a| - 1 - suf] != b[|b| - 1 - suf]
    ensures Middle(a, b) == a[pre..|a| - suf] &&
            Middle(b, a) == b[pre..|b| - suf]
  {
    hide CommonPrefix, CommonSuffix, Ending;
    PrefixIs(a, b, pre);
    RestEnding(a, pre, suf);
    RestEnding(b, pre, suf);
    SuffixIs(a[pre..], b[pre..], suf);
  }

  /** Both middles are shorter by the same. */
  lemma MiddleSizes(a: seq<Line>, b: seq<Line>)
    ensures |Middle(b, a)| - |Middle(a, b)| == |b| - |a|
  {
    PrefixSymmetric(a, b);
    var pre := CommonPrefix(a, b);
    SuffixSymmetric(a[pre..], b[pre..]);
  }

  lemma {:induction false} PrefixSymmetric(a: seq<Line>, b: seq<Line>)
    ensures CommonPrefix(a, b) == CommonPrefix(b, a)
  {
    if a != [] && b != [] { PrefixSymmetric(a[1..], b[1..]); }
  }

  lemma {:induction false} SuffixSymmetric(a: seq<Line>, b: seq<Line>)
    ensures CommonSuffix(a, b) == CommonSuffix(b, a)
  {
    if a != [] && b != [] { SuffixSymmetric(a[..|a| - 1], b[..|b| - 1]); }
  }

  /** The end of a sequence is the end of its rest. */
  lemma RestEnding(s: seq<Line>, pre: nat, suf: nat)
    requires pre + suf <= |s|
    ensures var rest := s[pre..];
            |rest| == |s| - pre && Ending(rest, suf) == s[|s| - suf..] &&
            (pre + suf < |s| ==> rest[|rest| - 1 - suf] == s[|s| - 1 - suf])
  {
  }

  // ------------------------------------------------------------ extended edit graph

  predicate Diagonal(a: seq<Line>, b: seq<Line>, x: int, y: int)
  {
    0 <= x < |a| && 0 <= y < |b| && a[x] == b[y]
  }

  /** Fewest unit edges from (0, 0) to (x, y) in the extended graph. */
  function Dist(a: seq<Line>, b: seq<Line>, x: nat, y: nat): int
  {
    x + y - 2 * Lcs(a, b, Min(x, |a|), Min(y, |b|))
  }

  /** A unit edge changes the distance by one, up or down. */
  lemma DistUnit(a: seq<Line>, b: seq<Line>, x: nat, y: nat)
    ensures -1 <= Dist(a, b, x + 1, y) - Dist(a, b, x, y) <= 1
    ensures -1 <= Dist(a, b, x, y + 1) - Dist(a, b, x, y) <= 1
  {
    LcsGrows(a, b, Min(x + 1, |a|), Min(y, |b|));
    LcsGrows(a, b, Min(x, |a|), Min(y + 1, |b|));
  }

  /** The recurrence of the distance: a diagonal is free, and a point no diagonal leads to
      is one edge beyond the nearer of its two neighbours. */
  lemma DistCorner(a: seq<Line>, b: seq<Line>, x: nat, y: nat)
    ensures Dist(a, b, x + 1, y + 1) ==
            if Diagonal(a, b, x, y) then Dist(a, b, x, y)
            else Min(Dist(a, b, x, y + 1), Dist(a, b, x + 1, y)) + 1
    ensures Dist(a, b, x + 1, y + 1) >= Dist(a, b, x, y)
  {
    hide Lcs;
    LcsGrows(a, b, Min(x + 1, |a|), Min(y + 1, |b|));
    LcsGrows(a, b, Min(x, |a|), Min(y + 1, |b|));
    LcsGrows(a, b, Min(x + 1, |a|), Min(y, |b|));
    if x < |a| && y < |b| { LcsCorner(a, b, x, y); }
  }

  lemma LcsCorner(a: seq<Line>, b: seq<Line>, x: nat, y: nat)
    requires x < |a| && y < |b|
    ensures Lcs(a, b, x + 1, y + 1) ==
            if a[x] == b[y] then Lcs(a, b, x, y) + 1 else Max(Lcs(a, b, x, y + 1), Lcs(a, b, x + 1, y))
  {
  }

  /** The distance never shrinks along a diagonal. */
  lemma {:induction false} DistAlong(a: seq<Line>, b: seq<Line>, x: nat, y: nat, steps: nat)
    ensures Dist(a, b, x + steps, y + steps) >= Dist(a, b, x, y)
  {
    if steps > 0 {
      DistAlong(a, b, x, y, steps - 1);
      DistCorner(a, b, x + steps - 1, y + steps - 1);
    }
  }

  lemma DistRange(a: seq<Line>, b: seq<Line>, x: nat, y: nat)
    ensures x - y <= Dist(a, b, x, y) <= x + y
    ensures y - x <= Dist(a, b, x, y)
    ensures (Dist(a, b, x, y) - (x - y)) % 2 == 0
  {
    LcsBound(a, b, Min(x, |a|), Min(y, |b|));
    var l := Lcs(a, b, Min(x, |a|), Min(y, |b|));
    assert Dist(a, b, x, y) - (x - y) == 2 * (y - l);
  }

  /** Beyond the corner of the grid every step costs. */
  lemma DistBeyond(a: seq<Line>, b: seq<Line>, x: nat, y: nat)
    requires x >= |a| && y >= |b|
    ensures Dist(a, b, x, y) == Dist(a, b, |a|, |b|) + (x - |a|) + (y - |b|)
  {
  }
}
