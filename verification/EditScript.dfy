/** Edit scripts over two line sequences (internal/apply/diff.go). */
module EditScript {
  import opened Common
  import opened EditGraph

  datatype Op = Keep | Delete | Insert

  /** One edit: a and b are the positions in the old and the new lines before it. */
  datatype Edit = Edit(op: Op, a: int, b: int)

  /** The edit's lines exist, and a kept line is the same on both sides. */
  predicate Fits(e: Edit, a: seq<Line>, b: seq<Line>)
  {
    0 <= e.a && 0 <= e.b &&
    match e.op
    case Keep => Diagonal(a, b, e.a, e.b)
    case Delete => e.a < |a|
    case Insert => e.b < |b|
  }

  /** The positions after the edit. */
  function NextA(e: Edit): int
  {
    if e.op.Insert? then e.a else e.a + 1
  }

  function NextB(e: Edit): int
  {
    if e.op.Delete? then e.b else e.b + 1
  }

  /** es leads from the cursor (x, y) to (x2, y2): every edit carries the cursor before it,
      and fits there. */
  ghost predicate Script(es: seq<Edit>, a: seq<Line>, b: seq<Line>, x: int, y: int, x2: int, y2: int)
  {
    (es == [] && x == x2 && y == y2) ||
    (es != [] && es[0].a == x && es[0].b == y && Fits(es[0], a, b) &&
     Script(es[1..], a, b, NextA(es[0]), NextB(es[0]), x2, y2))
  }

  /** A script that turns all of a into all of b. */
  ghost predicate Turns(es: seq<Edit>, a: seq<Line>, b: seq<Line>)
  {
    Script(es, a, b, 0, 0, |a|, |b|)
  }

  /** Number of inserted and deleted lines. */
  function Changes(es: seq<Edit>): nat
  {
    if es == [] then 0 else (if es[0].op.Keep? then 0 else 1) + Changes(es[1..])
  }

  function Count(es: seq<Edit>, op: Op): nat
  {
    if es == [] then 0 else (if es[0].op == op then 1 else 0) + Count(es[1..], op)
  }

  lemma {:induction false} CountPush(es: seq<Edit>, e: Edit, op: Op)
    ensures Count(es + [e], op) == Count(es, op) + if e.op == op then 1 else 0
    decreases |es|
  {
    if es == [] {
      assert [e][1..] == [];
    } else {
      assert (es + [e])[1..] == es[1..] + [e];
      CountPush(es[1..], e, op);
    }
  }

  lemma {:induction false} ScriptConcat(s: seq<Edit>, t: seq<Edit>, a: seq<Line>, b: seq<Line>,
                                        x: int, y: int, x1: int, y1: int, x2: int, y2: int)
    requires Script(s, a, b, x, y, x1, y1) && Script(t, a, b, x1, y1, x2, y2)
    ensures Script(s + t, a, b, x, y, x2, y2)
    ensures Changes(s + t) == Changes(s) + Changes(t)
    decreases |s|
  {
    if s == [] {
      assert s + t == t;
    } else {
      assert (s + t)[1..] == s[1..] + t;
      ScriptConcat(s[1..], t, a, b, NextA(s[0]), NextB(s[0]), x1, y1, x2, y2);
    }
  }

  lemma ScriptPrepend(e: Edit, s: seq<Edit>, a: seq<Line>, b: seq<Line>, x2: int, y2: int)
    requires Fits(e, a, b) && Script(s, a, b, NextA(e), NextB(e), x2, y2)
    ensures Script([e] + s, a, b, e.a, e.b, x2, y2)
    ensures Changes([e] + s) == Changes(s) + if e.op.Keep? then 0 else 1
  {
    assert ([e] + s)[1..] == s;
  }

  /** Where a script stands before its i-th edit. */
  function At(es: seq<Edit>, i: nat, x2: int, y2: int): (int, int)
    requires i <= |es|
  {
    if i < |es| then (es[i].a, es[i].b) else (x2, y2)
  }

  /** A script splits at any index into two scripts that meet at the cursor of that index. */
  lemma {:induction false} ScriptSplit(es: seq<Edit>, a: seq<Line>, b: seq<Line>, x: int, y: int, x2: int, y2: int, i: nat)
    requires Script(es, a, b, x, y, x2, y2) && i <= |es|
    ensures var (xi, yi) := At(es, i, x2, y2);
            Script(es[..i], a, b, x, y, xi, yi) &&
            Script(es[i..], a, b, xi, yi, x2, y2)
    decreases |es|
  {
    hide Fits;
    if i == 0 {
      assert es[..0] == [] && es[0..] == es;
    } else {
      var e, t := es[0], es[1..];
      ScriptSplit(t, a, b, NextA(e), NextB(e), x2, y2, i - 1);
      assert At(t, i - 1, x2, y2) == At(es, i, x2, y2);
      var (xi, yi) := At(es, i, x2, y2);
      ScriptPrepend(e, t[..i - 1], a, b, xi, yi);
      hide Script;
      assert es[..i] == [e] + t[..i - 1];
      assert t[i - 1..] == es[i..];
    }
  }

  lemma {:induction false} ScriptMoves(es: seq<Edit>, a: seq<Line>, b: seq<Line>, x: int, y: int, x2: int, y2: int)
    requires Script(es, a, b, x, y, x2, y2)
    ensures x <= x2 && y <= y2
    ensures x2 - x == |es| - Count(es, Insert) &&
            y2 - y == |es| - Count(es, Delete)
    ensures Changes(es) == Count(es, Insert) + Count(es, Delete)
    decreases |es|
  {
    if es != [] {
      ScriptMoves(es[1..], a, b, NextA(es[0]), NextB(es[0]), x2, y2);
    }
  }

  // ------------------------------------------------------------ replay

  /** The old lines a script reads: its kept and deleted lines. */
  function OldLines(es: seq<Edit>, a: seq<Line>): seq<Line>
    requires forall e :: e in es && !e.op.Insert? ==> 0 <= e.a < |a|
  {
    if es == [] then []
    else (if es[0].op.Insert? then [] else [a[es[0].a]]) + OldLines(es[1..], a)
  }

  /** The new lines a script writes: its kept and inserted lines. */
  function NewLines(es: seq<Edit>, a: seq<Line>, b: seq<Line>): seq<Line>
    requires forall e :: e in es && e.op.Keep? ==> 0 <= e.a < |a|
    requires forall e :: e in es && e.op.Insert? ==> 0 <= e.b < |b|
  {
    if es == [] then []
    else (match es[0].op
          case Keep => [a[es[0].a]]
          case Insert => [b[es[0].b]]
          case Delete => []) + NewLines(es[1..], a, b)
  }

  lemma SliceHead(s: seq<Line>, lo: int, hi: int)
    requires 0 <= lo < hi <= |s|
    ensures s[lo..hi] == [s[lo]] + s[lo + 1..hi]
  {
  }

  /** Replaying a script reads exactly the old lines between its cursors, in order, and
      writes exactly the new ones. */
  lemma {:induction false} ScriptReplays(es: seq<Edit>, a: seq<Line>, b: seq<Line>, x: int, y: int, x2: int, y2: int)
    requires Script(es, a, b, x, y, x2, y2) && 0 <= x && 0 <= y && x2 <= |a| && y2 <= |b|
    ensures 0 <= x <= x2 && 0 <= y <= y2
    ensures forall e :: e in es && !e.op.Insert? ==> 0 <= e.a < |a|
    ensures forall e :: e in es && !e.op.Delete? ==> 0 <= e.b < |b|
    ensures OldLines(es, a) == a[x..x2]
    ensures NewLines(es, a, b) == b[y..y2]
    decreases |es|
  {
    if es != [] {
      var e := es[0];
      ScriptReplays(es[1..], a, b, NextA(e), NextB(e), x2, y2);
      assert es == [e] + es[1..];
      if NextA(e) > x { SliceHead(a, x, x2); }
      if NextB(e) > y { SliceHead(b, y, y2); }
    }
  }

  // ------------------------------------------------------------ shortest scripts

  /** No script keeps more lines than the longest common subsequence: its changes are at
      least the distance between its ends. */
  lemma {:induction false} ScriptLowerBound(es: seq<Edit>, a: seq<Line>, b: seq<Line>, x: nat, y: nat, x2: nat, y2: nat)
    requires Script(es, a, b, x, y, x2, y2)
    ensures Changes(es) >= Dist(a, b, x2, y2) - Dist(a, b, x, y)
    decreases |es|
  {
    if es != [] {
      match es[0].op
      case Keep =>
        DistCorner(a, b, x, y);
        ScriptLowerBound(es[1..], a, b, x + 1, y + 1, x2, y2);
      case Delete =>
        DistUnit(a, b, x, y);
        ScriptLowerBound(es[1..], a, b, x + 1, y, x2, y2);
      case Insert =>
        DistUnit(a, b, x, y);
        ScriptLowerBound(es[1..], a, b, x, y + 1, x2, y2);
    }
  }

  /** The insert/delete distance of two line sequences. */
  function Distance(a: seq<Line>, b: seq<Line>): int
  {
    |a| + |b| - 2 * Lcs(a, b, |a|, |b|)
  }

  lemma DistanceRange(a: seq<Line>, b: seq<Line>)
    ensures 0 <= Distance(a, b) <= |a| + |b|
    ensures |a| == 0 || |b| == 0 ==> Distance(a, b) == |a| + |b|
  {
    DistRange(a, b, |a|, |b|);
  }

  ghost predicate Shortest(es: seq<Edit>, a: seq<Line>, b: seq<Line>)
  {
    Turns(es, a, b) && forall other :: Turns(other, a, b) ==> Changes(es) <= Changes(other)
  }

  /** Some script has exactly Dist changes. */
  lemma {:induction false} ScriptExists(a: seq<Line>, b: seq<Line>, i: nat, j: nat) returns (es: seq<Edit>)
    requires i <= |a| && j <= |b|
    ensures Script(es, a, b, 0, 0, i, j) &&
            Changes(es) == Dist(a, b, i, j)
    decreases i + j
  {
    hide Dist, Lcs;
    DistRange(a, b, i, j);
    if j == 0 && i > 0 { DistRange(a, b, i - 1, j); }
    if i == 0 && j > 0 { DistRange(a, b, i, j - 1); }
    if i == 0 && j == 0 {
      es := [];
    } else {
      var e: Edit;
      if i > 0 && j > 0 && a[i - 1] == b[j - 1] {
        es := ScriptExists(a, b, i - 1, j - 1);
        e := Edit(Keep, i - 1, j - 1);
        DistCorner(a, b, i - 1, j - 1);
      } else if j == 0 || (i > 0 && Dist(a, b, i - 1, j) <= Dist(a, b, i, j - 1)) {
        es := ScriptExists(a, b, i - 1, j);
        e := Edit(Delete, i - 1, j);
        if j > 0 { DistCorner(a, b, i - 1, j - 1); }
      } else {
        es := ScriptExists(a, b, i, j - 1);
        e := Edit(Insert, i, j - 1);
        if i > 0 { DistCorner(a, b, i - 1, j - 1); }
      }
      assert [e][1..] == [];
      assert Script([e], a, b, e.a, e.b, i, j);
      ScriptConcat(es, [e], a, b, 0, 0, e.a, e.b, i, j);
      es := es + [e];
    }
  }

  /** A script is shortest exactly when it has len(a) + len(b) - 2 * LCS changes. */
  lemma ShortestIsDistance(es: seq<Edit>, a: seq<Line>, b: seq<Line>)
    requires Turns(es, a, b)
    ensures Shortest(es, a, b) <==> Changes(es) == Distance(a, b)
  {
    forall other | Turns(other, a, b)
      ensures Distance(a, b) <= Changes(other)
    {
      ScriptLowerBound(other, a, b, 0, 0, |a|, |b|);
    }
    var best := ScriptExists(a, b, |a|, |b|);
    assert Turns(best, a, b);
  }
}
