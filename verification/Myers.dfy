/**
  The shortest edit script (internal/apply/diff.go): Myers' greedy forward pass over a
  furthest-reaching array, a snapshot of that array per round, and a backtrack that replays
  the choices from the snapshots.
 */
module Myers {
  import opened EditGraph
  import opened EditScript

  const MAX_EDIT_DISTANCE: nat := 2000

  // ------------------------------------------------------------ furthest-reaching points

  /** x is the largest position on diagonal k (x - y == k) within d unit edges of (0, 0). */
  ghost predicate Furthest(a: seq<Line>, b: seq<Line>, d: int, k: int, x: int)
  {
    x >= 0 &&
    x >= k &&
    Dist(a, b, x, x - k) <= d < Dist(a, b, x + 1, x + 1 - k)
  }

  /** Diagonal k is one that round d visits. */
  ghost predicate Visits(d: int, k: int)
  {
    -d <= k <= d && (k + d) % 2 == 0
  }

  /** The point d - 1 unit edges reach on the two diagonals next to k; before the first
      round the slot of diagonal 1 holds 0. */
  ghost predicate Neighbours(a: seq<Line>, b: seq<Line>, d: int, k: int, left: int, right: int)
  {
    Visits(d, k) &&
    (k > -d ==> Furthest(a, b, d - 1, k - 1, left)) &&
    (k < d ==> Furthest(a, b, d - 1, k + 1, right)) &&
    (d == 0 ==> right == 0)
  }

  /** The forward choice: down from diagonal k + 1, or right from diagonal k - 1. */
  predicate GoesDown(d: int, k: int, left: int, right: int)
  {
    k == -d || (k != d && left < right)
  }

  function FirstX(d: int, k: int, left: int, right: int): int
  {
    if GoesDown(d, k, left, right) then right else left + 1
  }

  /** The furthest point on a diagonal is unique, and everything up to it is in reach. */
  lemma FurthestIsMaximal(a: seq<Line>, b: seq<Line>, d: int, k: int, x: int, x': int)
    requires Furthest(a, b, d, k, x) && x' >= 0 && x' >= k
    ensures Dist(a, b, x', x' - k) <= d <==> x' <= x
  {
    if x' <= x {
      DistAlong(a, b, x', x' - k, x - x');
    } else {
      DistAlong(a, b, x + 1, x + 1 - k, x' - x - 1);
    }
  }

  /** The point the forward choice starts from is within d edges. */
  lemma ChoiceInReach(a: seq<Line>, b: seq<Line>, d: int, k: int, left: int, right: int)
    requires Neighbours(a, b, d, k, left, right)
    ensures var x := FirstX(d, k, left, right);
            x >= 0 && x >= k && Dist(a, b, x, x - k) <= d
    ensures var x := FirstX(d, k, left, right);
            (k > -d ==> left < x) && (k < d ==> right <= x)
  {
    if d > 0 {
      if GoesDown(d, k, left, right) {
        DistUnit(a, b, right, right - k - 1);
      } else {
        DistUnit(a, b, left, left - k + 1);
      }
    }
  }

  /** From the start of the forward choice on, a point without a diagonal is the end of what
      d edges reach. */
  lemma NoFurther(a: seq<Line>, b: seq<Line>, d: int, k: int, left: int, right: int, x: int)
    requires Neighbours(a, b, d, k, left, right)
    requires x >= FirstX(d, k, left, right) && x >= 0 && x >= k
    requires !Diagonal(a, b, x, x - k)
    ensures Dist(a, b, x + 1, x + 1 - k) > d
  {
    hide Furthest, Dist, Lcs;
    var y := x - k;
    ChoiceInReach(a, b, d, k, left, right);
    DistCorner(a, b, x, y);
    DistRange(a, b, x, y + 1);
    DistRange(a, b, x + 1, y);
    if k > -d {
      FurthestIsMaximal(a, b, d - 1, k - 1, left, x);
    }
    if k < d {
      FurthestIsMaximal(a, b, d - 1, k + 1, right, x + 1);
    }
  }

  /** Between the start of the forward choice and the furthest point all edges are diagonals. */
  lemma SlideIsDiagonal(a: seq<Line>, b: seq<Line>, d: int, k: int, left: int, right: int, x: int, x': int)
    requires Neighbours(a, b, d, k, left, right)
    requires Furthest(a, b, d, k, x)
    requires FirstX(d, k, left, right) <= x' < x
    ensures Diagonal(a, b, x', x' - k)
  {
    ChoiceInReach(a, b, d, k, left, right);
    if !Diagonal(a, b, x', x' - k) {
      NoFurther(a, b, d, k, left, right, x');
      FurthestIsMaximal(a, b, d, k, x, x' + 1);
    }
  }

  /** The first point at or beyond the corner is the corner itself, at its true distance. */
  lemma StopsAtCorner(a: seq<Line>, b: seq<Line>, d: int, k: int, x: int)
    requires Furthest(a, b, d, k, x) && x >= |a| && x - k >= |b|
    requires Distance(a, b) >= d
    ensures x == |a| && x - k == |b| && Distance(a, b) == d
  {
    DistBeyond(a, b, x, x - k);
  }

  /** A round that ends short of the corner proves the distance is more than its edges. */
  lemma StillShort(a: seq<Line>, b: seq<Line>, d: int, x: int)
    requires Distance(a, b) >= d
    requires var k := |a| - |b|; Visits(d, k) ==> Furthest(a, b, d, k, x) && (x < |a| || x - k < |b|)
    ensures Distance(a, b) > d
  {
    DistRange(a, b, |a|, |b|);
    if Distance(a, b) == d {
      FurthestIsMaximal(a, b, d, |a| - |b|, x, |a|);
    }
  }

  // ------------------------------------------------------------ rounds

  /** Slot k of a snapshot of round d; 0 outside it. */
  function Get(snap: seq<int>, d: int, k: int): int
  {
    var i := k + d + 1;
    if i < 0 || i >= |snap| then 0 else snap[i]
  }

  /** Diagonal k is one the round before d visited. */
  ghost predicate Visited(d: int, k: int)
  {
    Visits(d - 1, k)
  }

  /** row, the slots of diagonals -d - 1 to d + 1, holds what d - 1 edges reach. */
  ghost predicate Frontier(a: seq<Line>, b: seq<Line>, d: nat, row: seq<int>)
  {
    |row| == 2 * d + 3 &&
    (d == 0 ==> row[2] == 0) &&
    forall k :: Visited(d, k) ==> Furthest(a, b, d - 1, k, Get(row, d, k))
  }

  lemma FrontierNeighbours(a: seq<Line>, b: seq<Line>, d: int, row: seq<int>, k: int)
    requires d >= 0 && Frontier(a, b, d, row) && Visits(d, k)
    ensures Neighbours(a, b, d, k, Get(row, d, k - 1), Get(row, d, k + 1))
  {
    if k > -d { assert Visited(d, k - 1); }
    if k < d { assert Visited(d, k + 1); }
  }

  /** One snapshot per round, taken before it. */
  ghost predicate Trace(a: seq<Line>, b: seq<Line>, trace: seq<seq<int>>)
  {
    forall d :: 0 <= d < |trace| ==> Frontier(a, b, d, trace[d])
  }

  lemma TracePush(a: seq<Line>, b: seq<Line>, trace: seq<seq<int>>, row: seq<int>)
    ensures Trace(a, b, trace) && Frontier(a, b, |trace|, row) ==> Trace(a, b, trace + [row])
  {
  }

  // ------------------------------------------------------------ backtrack

  function Reverse(s: seq<Edit>): (r: seq<Edit>)
    ensures |r| == |s|
  {
    if s == [] then [] else [s[|s| - 1]] + Reverse(s[..|s| - 1])
  }

  lemma {:induction false} ReverseAt(s: seq<Edit>, i: nat)
    requires i < |s|
    ensures Reverse(s)[i] == s[|s| - 1 - i]
  {
    if i > 0 {
      ReverseAt(s[..|s| - 1], i - 1);
    }
  }

  lemma ReversePush(s: seq<Edit>, e: Edit)
    ensures Reverse(s + [e]) == [e] + Reverse(s)
  {
    assert (s + [e])[..|s|] == s;
  }

  method Reversed(s: seq<Edit>) returns (r: seq<Edit>)
    ensures r == Reverse(s)
  {
    r := [];
    for i := 0 to |s|
      invariant r == Reverse(s)[..i]
    {
      ReverseAt(s, i);
      r := r + [s[|s| - 1 - i]];
    }
  }

  /** rev, read backwards, leads from (x, y) to the far corner with the given changes. */
  ghost predicate LeadsFrom(rev: seq<Edit>, a: seq<Line>, b: seq<Line>, x: int, y: int, changes: int)
  {
    Script(Reverse(rev), a, b, x, y, |a|, |b|) &&
    Changes(Reverse(rev)) == changes
  }

  lemma LeadsFromCorner(a: seq<Line>, b: seq<Line>)
    ensures LeadsFrom([], a, b, |a|, |b|, 0)
  {
  }

  lemma LeadsFromStart(rev: seq<Edit>, a: seq<Line>, b: seq<Line>, changes: int)
    requires LeadsFrom(rev, a, b, 0, 0, changes)
    ensures Turns(Reverse(rev), a, b) && Changes(Reverse(rev)) == changes
  {
  }

  lemma LeadsFromPush(rev: seq<Edit>, a: seq<Line>, b: seq<Line>, x: int, y: int, changes: int, e: Edit)
    requires LeadsFrom(rev, a, b, x, y, changes) && 0 <= e.a && 0 <= e.b && x == NextA(e) && y == NextB(e)
    requires e.op.Keep? ==> Diagonal(a, b, e.a, e.b)
    ensures LeadsFrom(rev + [e], a, b, e.a, e.b, changes + if e.op.Keep? then 0 else 1)
  {
    ScriptMoves(Reverse(rev), a, b, x, y, |a|, |b|);
    ScriptPrepend(e, Reverse(rev), a, b, |a|, |b|);
    ReversePush(rev, e);
  }

  /** Diagonal k has only free edges from position first to position last. */
  ghost predicate Slides(a: seq<Line>, b: seq<Line>, k: int, first: int, last: int)
  {
    0 <= first <= last && k <= first &&
    forall x :: first <= x < last ==> DiagonalAt(a, b, k, x)
  }

  ghost predicate DiagonalAt(a: seq<Line>, b: seq<Line>, k: int, x: int)
  {
    Diagonal(a, b, x, x - k)
  }

  /** Between the start of the forward choice and the furthest point all edges are free. */
  lemma RoundSlides(a: seq<Line>, b: seq<Line>, d: int, k: int, left: int, right: int, x: int)
    requires Neighbours(a, b, d, k, left, right) && Furthest(a, b, d, k, x)
    ensures Slides(a, b, k, FirstX(d, k, left, right), x)
  {
    var first := FirstX(d, k, left, right);
    ChoiceInReach(a, b, d, k, left, right);
    FurthestIsMaximal(a, b, d, k, x, first);
    forall x' | first <= x' < x
      ensures DiagonalAt(a, b, k, x')
    {
      SlideIsDiagonal(a, b, d, k, left, right, x, x');
    }
  }

  /** What a snapshot says about its round's choice: the point before it was furthest one
      round earlier, and free edges lead from there to (x, y). */
  lemma RoundBack(a: seq<Line>, b: seq<Line>, d: int, snap: seq<int>, x: int, y: int, prevK: int)
    requires d >= 0 && Frontier(a, b, d, snap) && Visits(d, x - y) && Furthest(a, b, d, x - y, x)
    requires prevK == if GoesDown(d, x - y, Get(snap, d, x - y - 1), Get(snap, d, x - y + 1)) then x - y + 1 else x - y - 1
    ensures d > 0 ==> Visits(d - 1, prevK) && Furthest(a, b, d - 1, prevK, Get(snap, d, prevK))
    ensures d == 0 ==> prevK == 1 && Get(snap, d, prevK) == 0
    ensures prevK == x - y + 1 ==> Slides(a, b, x - y, Get(snap, d, prevK), x)
    ensures prevK == x - y - 1 ==> Slides(a, b, x - y, Get(snap, d, prevK) + 1, x)
  {
    hide Furthest, Dist, Lcs, Slides;
    FrontierNeighbours(a, b, d, snap, x - y);
    RoundSlides(a, b, d, x - y, Get(snap, d, x - y - 1), Get(snap, d, x - y + 1), x);
  }

  /** The diagonals of one round, walked backwards from (x, y) to the point the forward
      choice started from: one unit edge after (prevX, prevY). */
  method SlideBack(a: seq<Line>, b: seq<Line>, rev: seq<Edit>, x: int, y: int, prevX: int, prevY: int, ghost changes: int)
    returns (rev': seq<Edit>, x': int, y': int)
    requires prevX - prevY == x - y + 1 ==> Slides(a, b, x - y, prevX, x)
    requires prevX - prevY == x - y - 1 ==> Slides(a, b, x - y, prevX + 1, x)
    requires prevX - prevY == x - y + 1 || prevX - prevY == x - y - 1
    requires LeadsFrom(rev, a, b, x, y, changes)
    ensures x' == (if prevX - prevY == x - y + 1 then prevX else prevX + 1) && x' - y' == x - y
    ensures LeadsFrom(rev', a, b, x', y', changes)
  {
    rev', x', y' := rev, x, y;
    while x' > prevX && y' > prevY
      invariant x' - y' == x - y && prevX <= x' <= x && prevY <= y'
      invariant LeadsFrom(rev', a, b, x', y', changes)
    {
      assert DiagonalAt(a, b, x - y, x' - 1);
      LeadsFromPush(rev', a, b, x', y', changes, Edit(Keep, x' - 1, y' - 1));
      rev' := rev' + [Edit(Keep, x' - 1, y' - 1)];
      x' := x' - 1;
      y' := y' - 1;
    }
  }

  /** Walks back from the corner, re-deriving each round's choice from its snapshot. */
  method Backtrack(a: seq<Line>, b: seq<Line>, trace: seq<seq<int>>) returns (es: seq<Edit>)
    requires |trace| > 0 && Trace(a, b, trace)
    requires Visits(|trace| - 1, |a| - |b|) && Furthest(a, b, |trace| - 1, |a| - |b|, |a|)
    ensures Turns(es, a, b)
    ensures Changes(es) == |trace| - 1
  {
    hide Script, Changes, Frontier, Neighbours, Slides, Reverse, Dist, Lcs, LeadsFrom, Turns;
    LeadsFromCorner(a, b);
    var rev: seq<Edit> := [];
    var x, y := |a|, |b|;
    var d := |trace| - 1;
    while d >= 0
      invariant -1 <= d < |trace|
      invariant d >= 0 ==> Visits(d, x - y) && Furthest(a, b, d, x - y, x)
      invariant d >= 0 ==> LeadsFrom(rev, a, b, x, y, |trace| - 1 - d)
      invariant d < 0 ==> LeadsFrom(rev, a, b, 0, 0, |trace| - 1)
    {
      var snap := trace[d];
      var k := x - y;
      var prevK;
      if k == -d || (k != d && Get(snap, d, k - 1) < Get(snap, d, k + 1)) {
        prevK := k + 1;
      } else {
        prevK := k - 1;
      }
      var prevX := Get(snap, d, prevK);
      var prevY := prevX - prevK;
      RoundBack(a, b, d, snap, x, y, prevK);
      rev, x, y := SlideBack(a, b, rev, x, y, prevX, prevY, |trace| - 1 - d);
      if d > 0 {
        var e := if x == prevX then Edit(Insert, x, y - 1) else Edit(Delete, x - 1, y);
        LeadsFromPush(rev, a, b, x, y, |trace| - 1 - d, e);
        rev := rev + [e];
      }
      x, y := prevX, prevY;
      d := d - 1;
    }
    es := Reversed(rev);
    LeadsFromStart(rev, a, b, |trace| - 1);
  }

  // ------------------------------------------------------------ forward pass

  /** Deletes every old line, then inserts every new one. */
  method ReplaceAll(a: seq<Line>, b: seq<Line>) returns (es: seq<Edit>)
    ensures Turns(es, a, b)
    ensures Changes(es) == |a| + |b|
  {
    es := [];
    for i := 0 to |a|
      invariant LeadsTo(es, a, b, i, 0, i)
    {
      LeadsToPush(es, Edit(Delete, i, 0), a, b, i);
      es := es + [Edit(Delete, i, 0)];
    }
    for j := 0 to |b|
      invariant LeadsTo(es, a, b, |a|, j, |a| + j)
    {
      LeadsToPush(es, Edit(Insert, |a|, j), a, b, |a| + j);
      es := es + [Edit(Insert, |a|, j)];
    }
  }

  /** A script from (0, 0) to (x, y) with the given number of changes. */
  ghost predicate LeadsTo(es: seq<Edit>, a: seq<Line>, b: seq<Line>, x: int, y: int, changes: int)
  {
    Script(es, a, b, 0, 0, x, y) && Changes(es) == changes
  }

  lemma LeadsToPush(es: seq<Edit>, e: Edit, a: seq<Line>, b: seq<Line>, changes: int)
    requires LeadsTo(es, a, b, e.a, e.b, changes) && Fits(e, a, b)
    ensures LeadsTo(es + [e], a, b, NextA(e), NextB(e), changes + if e.op.Keep? then 0 else 1)
  {
    assert Script([e], a, b, e.a, e.b, NextA(e), NextB(e));
    ScriptConcat(es, [e], a, b, 0, 0, e.a, e.b, NextA(e), NextB(e));
  }

  /** One diagonal of a round: the forward choice, then as many diagonals as match. */
  method Reach(a: seq<Line>, b: seq<Line>, d: int, k: int, left: int, right: int) returns (x: int)
    requires Neighbours(a, b, d, k, left, right)
    ensures Furthest(a, b, d, k, x)
  {
    hide Dist, Lcs;
    if k == -d || (k != d && left < right) {
      x := right;
    } else {
      x := left + 1;
    }
    ChoiceInReach(a, b, d, k, left, right);
    var y := x - k;
    while x < |a| && y < |b| && a[x] == b[y]
      invariant y == x - k && x >= FirstX(d, k, left, right) && x >= 0 && y >= 0
      invariant Dist(a, b, x, y) <= d
    {
      DistCorner(a, b, x, y);
      x := x + 1;
      y := y + 1;
    }
    NoFurther(a, b, d, k, left, right, x);
  }

  /** The array in the middle of round d: diagonals below k hold what d edges reach, all short
      of the corner, and the slots of the other parity are still those of the snapshot. */
  ghost predicate InRound(a: seq<Line>, b: seq<Line>, d: int, k: int, offset: int, snap: seq<int>, row: seq<int>)
  {
    0 <= d < offset && |row| == 2 * offset + 1 && -d <= k <= d + 2 && (k + d) % 2 == 0 &&
    Frontier(a, b, d, snap) &&
    (d == 0 ==> row[offset + 1] == 0) &&
    (forall j :: Visited(d, j) ==> row[offset + j] == Get(snap, d, j)) &&
    forall j :: Visits(d, j) && j < k ==>
      Furthest(a, b, d, j, row[offset + j]) && (row[offset + j] < |a| || row[offset + j] - j < |b|)
  }

  /** The whole array before round d: the slots the round reads hold what d - 1 edges reach. */
  ghost predicate BeforeRound(a: seq<Line>, b: seq<Line>, d: int, offset: int, row: seq<int>)
  {
    0 <= d < offset && |row| == 2 * offset + 1 && Frontier(a, b, d, row[offset - d - 1..offset + d + 2])
  }

  lemma TraceStart(a: seq<Line>, b: seq<Line>, offset: int, row: seq<int>)
    requires 0 < offset && |row| == 2 * offset + 1 && forall i :: 0 <= i < |row| ==> row[i] == 0
    ensures Trace(a, b, []) && BeforeRound(a, b, 0, offset, row)
  {
  }

  lemma SnapshotOf(a: seq<Line>, b: seq<Line>, d: int, offset: int, row: seq<int>)
    requires BeforeRound(a, b, d, offset, row)
    ensures 0 <= d < offset && |row| == 2 * offset + 1 && Frontier(a, b, d, row[offset - d - 1..offset + d + 2])
  {
  }

  lemma RoundStarts(a: seq<Line>, b: seq<Line>, d: int, offset: int, row: seq<int>)
    requires BeforeRound(a, b, d, offset, row)
    ensures InRound(a, b, d, -d, offset, row[offset - d - 1..offset + d + 2], row)
  {
  }

  lemma RoundReads(a: seq<Line>, b: seq<Line>, d: int, k: int, offset: int, snap: seq<int>, row: seq<int>)
    requires InRound(a, b, d, k, offset, snap, row) && k <= d
    ensures 0 <= offset + k - 1 && offset + k + 1 < |row|
    ensures Neighbours(a, b, d, k, row[offset + k - 1], row[offset + k + 1])
  {
    FrontierNeighbours(a, b, d, snap, k);
    assert k > -d ==> Visited(d, k - 1);
    assert k < d ==> Visited(d, k + 1);
  }

  /** Writing slot k leaves alone every slot the round still has to read. */
  lemma RoundWrites(a: seq<Line>, b: seq<Line>, d: int, k: int, offset: int, snap: seq<int>, row: seq<int>, x: int)
    requires InRound(a, b, d, k, offset, snap, row) && k <= d
    requires Furthest(a, b, d, k, x) && (x < |a| || x - k < |b|)
    ensures InRound(a, b, d, k + 2, offset, snap, row[offset + k := x])
  {
    hide Furthest, Frontier;
    assert d == 0 ==> k == 0;
  }

  lemma RoundEnds(a: seq<Line>, b: seq<Line>, d: int, offset: int, snap: seq<int>, row: seq<int>)
    requires InRound(a, b, d, d + 2, offset, snap, row) && Distance(a, b) >= d
    ensures Distance(a, b) > d
    ensures d + 2 <= offset ==> BeforeRound(a, b, d + 1, offset, row)
  {
    hide Furthest, Distance;
    var corner := |a| - |b|;
    StillShort(a, b, d, if Visits(d, corner) then row[offset + corner] else 0);
    if d + 2 <= offset {
      var next, out := d + 1, row[offset - d - 2..offset + d + 3];
      forall j | Visited(next, j)
        ensures Furthest(a, b, d, j, Get(out, next, j))
      {
        assert Visits(d, j);
      }
    }
  }

  lemma RoundAt(a: seq<Line>, b: seq<Line>, d: int, k: int, offset: int, snap: seq<int>, row: seq<int>)
    requires InRound(a, b, d, k, offset, snap, row)
    ensures if k <= d then Visits(d, k) else k == d + 2
  {
  }

  /** One round over the diagonals -d, -d + 2, ..., d, in place. It reads only slots the
      round before it wrote and writes only slots of the other parity. */
  method Round(a: seq<Line>, b: seq<Line>, d: int, v: array<int>, offset: int) returns (done: bool)
    requires v.Length == 2 * offset + 1 && BeforeRound(a, b, d, offset, v[..]) && Distance(a, b) >= d
    modifies v
    ensures done ==> Visits(d, |a| - |b|) && Furthest(a, b, d, |a| - |b|, |a|) && Distance(a, b) == d
    ensures !done ==> Distance(a, b) > d
    ensures !done && d + 2 <= offset ==> BeforeRound(a, b, d + 1, offset, v[..])
  {
    hide *;
    SnapshotOf(a, b, d, offset, v[..]);
    ghost var snap := v[..][offset - d - 1..offset + d + 2];
    RoundStarts(a, b, d, offset, v[..]);
    var k: int := -d;
    while k <= d
      invariant InRound(a, b, d, k, offset, snap, v[..])
    {
      RoundReads(a, b, d, k, offset, snap, v[..]);
      RoundAt(a, b, d, k, offset, snap, v[..]);
      var x := Reach(a, b, d, k, v[offset + k - 1], v[offset + k + 1]);
      ghost var row := v[..];
      v[offset + k] := x;
      if x >= |a| && x - k >= |b| {
        StopsAtCorner(a, b, d, k, x);
        return true;
      }
      RoundWrites(a, b, d, k, offset, snap, row, x);
      assert v[..] == row[offset + k := x];
      k := k + 2;
    }
    RoundAt(a, b, d, k, offset, snap, v[..]);
    RoundEnds(a, b, d, offset, snap, v[..]);
    done := false;
  }

  /** The O(ND) search on the trimmed middles. A distance up to MAX_EDIT_DISTANCE gives a
      script of exactly that many changes, a larger one replaces everything. */
  method MyersCore(a: seq<Line>, b: seq<Line>) returns (es: seq<Edit>)
    ensures Turns(es, a, b)
    ensures Changes(es) == if Distance(a, b) <= MAX_EDIT_DISTANCE then Distance(a, b) else |a| + |b|
  {
    hide *;
    var n, m := |a|, |b|;
    DistanceRange(a, b);
    if n == 0 || m == 0 {
      es := ReplaceAll(a, b);
      return;
    }
    var max := n + m;
    if max > 2 * MAX_EDIT_DISTANCE + 2 {
      max := 2 * MAX_EDIT_DISTANCE + 2;
    }
    var offset := max + 1;
    var v := new int[2 * offset + 1](_ => 0);
    var trace: seq<seq<int>> := [];
    var d := 0;
    TraceStart(a, b, offset, v[..]);
    while d <= max
      invariant 0 <= d <= max + 1 && |trace| == d
      invariant Trace(a, b, trace)
      invariant d <= max ==> BeforeRound(a, b, d, offset, v[..])
      invariant Distance(a, b) >= d && d <= MAX_EDIT_DISTANCE
    {
      SnapshotOf(a, b, d, offset, v[..]);
      var snap := v[offset - d - 1..offset + d + 2];
      assert snap == v[..][offset - d - 1..offset + d + 2];
      TracePush(a, b, trace, snap);
      trace := trace + [snap];
      var done := Round(a, b, d, v, offset);
      if done {
        es := Backtrack(a, b, trace);
        return;
      }
      if d >= MAX_EDIT_DISTANCE {
        break;
      }
      d := d + 1;
    }
    es := ReplaceAll(a, b);
  }

  // ------------------------------------------------------------ trimming

  function Shift(es: seq<Edit>, pre: nat): (r: seq<Edit>)
    ensures |r| == |es|
  {
    if es == [] then [] else [Edit(es[0].op, es[0].a + pre, es[0].b + pre)] + Shift(es[1..], pre)
  }

  lemma {:induction false} ShiftScript(es: seq<Edit>, a2: seq<Line>, b2: seq<Line>, a: seq<Line>, b: seq<Line>, pre: nat,
                                       x: int, y: int, x2: int, y2: int)
    requires Script(es, a2, b2, x, y, x2, y2)
    requires pre + |a2| <= |a| && pre + |b2| <= |b|
    requires forall i :: 0 <= i < |a2| ==> a2[i] == a[pre + i]
    requires forall i :: 0 <= i < |b2| ==> b2[i] == b[pre + i]
    ensures Script(Shift(es, pre), a, b, x + pre, y + pre, x2 + pre, y2 + pre)
    ensures Changes(Shift(es, pre)) == Changes(es)
    decreases |es|
  {
    if es != [] {
      ShiftScript(es[1..], a2, b2, a, b, pre, NextA(es[0]), NextB(es[0]), x2, y2);
    }
  }

  /** The trimmed middles of two line sequences. */
  ghost predicate Middles(a: seq<Line>, b: seq<Line>, a2: seq<Line>, b2: seq<Line>, pre: nat, suf: nat)
  {
    |a| == pre + |a2| + suf && |b| == pre + |b2| + suf &&
    a2 == a[pre..|a| - suf] && b2 == b[pre..|b| - suf] &&
    a[..pre] == b[..pre] && a[|a| - suf..] == b[|b| - suf..]
  }

  /** Trimming the common prefix and suffix keeps the distance. */
  lemma TrimKeepsDistance(a: seq<Line>, b: seq<Line>, a2: seq<Line>, b2: seq<Line>, pre: nat, suf: nat)
    requires Middles(a, b, a2, b2, pre, suf)
    ensures Distance(a, b) == Distance(a2, b2)
  {
    forall i | |a| - suf <= i < |a|
      ensures a[i] == b[|b| - |a| + i]
    {
      assert a[i] == a[|a| - suf..][i - (|a| - suf)];
      assert b[|b| - |a| + i] == b[|b| - suf..][i - (|a| - suf)];
    }
    LcsTrimSuffix(a, b, suf);
    LcsTrimPrefix(a, b, a2, b2, pre, |a2|, |b2|);
  }

  /** A script from one corner to the other that trims the common ends. It is shortest exactly
      when the distance is at most 2000 or the trimmed middles share no line. */
  method Myers(a: seq<Line>, b: seq<Line>) returns (es: seq<Edit>)
    ensures Turns(es, a, b)
    ensures Changes(es) ==
            if Distance(a, b) <= 2000 then Distance(a, b) else |Middle(a, b)| + |Middle(b, a)|
    ensures Shortest(es, a, b) <==> Distance(a, b) <= 2000 || !ShareLine(Middle(a, b), Middle(b, a))
  {
    hide *;
    var pre := TrimPrefix(a, b);
    var suf := TrimSuffix(a, b, pre);
    LeadsToStart(a, b);
    es := PushKeeps(a, b, [], 0, 0, pre, 0);
    var a2, b2 := a[pre..|a| - suf], b[pre..|b| - suf];
    var core := MyersCore(a2, b2);
    ghost var head := es;
    es := PushShifted(es, core, pre);
    LeadsToMiddle(head, core, a, b, a2, b2, pre, suf);
    assert a[|a| - suf..|a| - suf + suf] == a[|a| - suf..] && b[|b| - suf..|b| - suf + suf] == b[|b| - suf..];
    es := PushKeeps(a, b, es, |a| - suf, |b| - suf, suf, Changes(core));
    MiddlesOf(a, b, pre, suf);
    MiddleIs(a, b, pre, suf);
    Assembled(es, core, a, b, a2, b2, pre, suf);
  }

  /** The length of the longest common prefix. */
  method TrimPrefix(a: seq<Line>, b: seq<Line>) returns (pre: nat)
    ensures pre <= |a| && pre <= |b| && a[..pre] == b[..pre] && (pre == |a| || pre == |b| || a[pre] != b[pre])
  {
    pre := 0;
    while pre < |a| && pre < |b| && a[pre] == b[pre]
      invariant pre <= |a| && pre <= |b| && a[..pre] == b[..pre]
    {
      assert a[..pre + 1] == a[..pre] + [a[pre]] && b[..pre + 1] == b[..pre] + [b[pre]];
      pre := pre + 1;
    }
  }

  /** The length of the longest common suffix behind a prefix. */
  method TrimSuffix(a: seq<Line>, b: seq<Line>, pre: nat) returns (suf: nat)
    requires pre <= |a| && pre <= |b|
    ensures pre + suf <= |a| && pre + suf <= |b| && a[|a| - suf..] == b[|b| - suf..]
    ensures pre + suf == |a| || pre + suf == |b| || a[|a| - 1 - suf] != b[|b| - 1 - suf]
  {
    hide Ending;
    suf := 0;
    EndingIs(a, 0);
    EndingIs(b, 0);
    while suf < |a| - pre && suf < |b| - pre && a[|a| - 1 - suf] == b[|b| - 1 - suf]
      invariant suf <= |a| - pre && suf <= |b| - pre && Ending(a, suf) == Ending(b, suf)
    {
      EndingIs(a, suf);
      EndingIs(b, suf);
      suf := suf + 1;
    }
    EndingIs(a, suf);
    EndingIs(b, suf);
  }

  /** The edits of the middles, in terms of the whole. */
  method PushShifted(head: seq<Edit>, core: seq<Edit>, pre: nat) returns (es: seq<Edit>)
    ensures es == head + Shift(core, pre)
  {
    hide Shift;
    es := head;
    for i := 0 to |core|
      invariant es == head + Shift(core, pre)[..i]
    {
      ShiftAt(core, pre, i);
      es := es + [Edit(core[i].op, core[i].a + pre, core[i].b + pre)];
    }
    assert Shift(core, pre)[..|core|] == Shift(core, pre);
  }

  lemma MiddlesOf(a: seq<Line>, b: seq<Line>, pre: nat, suf: nat)
    requires pre + suf <= |a| && pre + suf <= |b|
    requires a[..pre] == b[..pre] && a[|a| - suf..] == b[|b| - suf..]
    ensures Middles(a, b, a[pre..|a| - suf], b[pre..|b| - suf], pre, suf)
  {
  }

  /** es continued by count kept lines from (x, y) on. */
  method PushKeeps(a: seq<Line>, b: seq<Line>, es: seq<Edit>, x: nat, y: nat, count: nat, ghost changes: int) returns (r: seq<Edit>)
    requires LeadsTo(es, a, b, x, y, changes)
    requires x + count <= |a| && y + count <= |b| && a[x..x + count] == b[y..y + count]
    ensures LeadsTo(r, a, b, x + count, y + count, changes)
  {
    hide LeadsTo;
    r := es;
    for i := 0 to count
      invariant LeadsTo(r, a, b, x + i, y + i, changes)
    {
      assert a[x + i] == a[x..x + count][i] == b[y + i];
      LeadsToPush(r, Edit(Keep, x + i, y + i), a, b, changes);
      r := r + [Edit(Keep, x + i, y + i)];
    }
  }

  /** The script of the trimmed middles, shifted into place after the common prefix. */
  lemma LeadsToMiddle(head: seq<Edit>, core: seq<Edit>, a: seq<Line>, b: seq<Line>, a2: seq<Line>, b2: seq<Line>, pre: nat, suf: nat)
    requires pre + suf <= |a| && pre + suf <= |b|
    requires a2 == a[pre..|a| - suf] && b2 == b[pre..|b| - suf]
    requires LeadsTo(head, a, b, pre, pre, 0) && Turns(core, a2, b2)
    ensures LeadsTo(head + Shift(core, pre), a, b, |a| - suf, |b| - suf, Changes(core))
  {
    hide Script, Shift, Changes;
    ShiftScript(core, a2, b2, a, b, pre, 0, 0, |a2|, |b2|);
    ScriptConcat(head, Shift(core, pre), a, b, 0, 0, pre, pre, |a| - suf, |b| - suf);
  }

  /** What the whole script is, from the middles' own. */
  lemma Assembled(es: seq<Edit>, core: seq<Edit>, a: seq<Line>, b: seq<Line>, a2: seq<Line>, b2: seq<Line>, pre: nat, suf: nat)
    requires Middles(a, b, a2, b2, pre, suf) && LeadsTo(es, a, b, |a|, |b|, Changes(core))
    requires Changes(core) == if Distance(a2, b2) <= MAX_EDIT_DISTANCE then Distance(a2, b2) else |a2| + |b2|
    ensures Turns(es, a, b)
    ensures Changes(es) == if Distance(a, b) <= 2000 then Distance(a, b) else |a2| + |b2|
    ensures Shortest(es, a, b) <==> Distance(a, b) <= 2000 || !ShareLine(a2, b2)
  {
    hide Shortest, ShareLine, Lcs;
    TrimKeepsDistance(a, b, a2, b2, pre, suf);
    NoCommonLine(a2, b2);
    ScriptTurns(es, a, b);
    ShortestIsDistance(es, a, b);
  }

  lemma ScriptTurns(es: seq<Edit>, a: seq<Line>, b: seq<Line>)
    ensures Script(es, a, b, 0, 0, |a|, |b|) <==> Turns(es, a, b)
  {
  }

  lemma LeadsToStart(a: seq<Line>, b: seq<Line>)
    ensures LeadsTo([], a, b, 0, 0, 0)
  {
  }

  lemma {:induction false} ShiftAt(es: seq<Edit>, pre: nat, i: nat)
    requires i < |es|
    ensures Shift(es, pre)[i] == Edit(es[i].op, es[i].a + pre, es[i].b + pre)
  {
    if i > 0 {
      ShiftAt(es[1..], pre, i - 1);
    }
  }

  // ------------------------------------------------------------ beyond the limit

  /** A line of one kind n times, a line of its own, and the first line n times again. */
  function Around(l: Line, center: Line, n: nat): (ls: seq<Line>)
    ensures |ls| == 2 * n + 1
  {
    seq(2 * n + 1, i => if i == n then center else l)
  }

  lemma AroundAt(l: Line, center: Line, n: nat, i: nat)
    requires i < 2 * n + 1
    ensures Around(l, center, n)[i] == if i == n then center else l
  {
  }

  lemma {:induction false} LcsAround(l: Line, l': Line, c: Line, n: nat, i: nat, j: nat)
    requires l != l' && c != l && c != l' && i <= 2 * n + 1 && j <= 2 * n + 1
    ensures Lcs(Around(l, c, n), Around(l', c, n), i, j) == if i > n && j > n then 1 else 0
    decreases i + j
  {
    hide Lcs, Around;
    var a, b := Around(l, c, n), Around(l', c, n);
    if i == 0 || j == 0 {
      LcsOfNothing(a, b, i, j);
    } else {
      AroundAt(l, c, n, i - 1);
      AroundAt(l', c, n, j - 1);
      LcsCorner(a, b, i - 1, j - 1);
      LcsAround(l, l', c, n, i - 1, j - 1);
      LcsAround(l, l', c, n, i - 1, j);
      LcsAround(l, l', c, n, i, j - 1);
    }
  }

  /** Inputs beyond the limit whose diff is not shortest: the middles are everything, and share
      one line. For n == 501 the distance is 2004. */
  lemma DegradesBeyondLimit(l: Line, l': Line, c: Line, n: nat, es: seq<Edit>)
    requires l != l' && c != l && c != l' && 4 * n > 2000
    ensures var a, b := Around(l, c, n), Around(l', c, n);
            Distance(a, b) == 4 * n &&
            Middle(a, b) == a &&
            Middle(b, a) == b &&
            ShareLine(a, b) &&
            (Turns(es, a, b) && Changes(es) == |a| + |b| ==> !Shortest(es, a, b))
  {
    hide Lcs, Turns, Changes, Shortest, Middle, ShareLine;
    var a, b := Around(l, c, n), Around(l', c, n);
    LcsAround(l, l', c, n, 2 * n + 1, 2 * n + 1);
    AroundMiddle(l, l', c, n);
    if Turns(es, a, b) { ShortestIsDistance(es, a, b); }
  }

  lemma AroundMiddle(l: Line, l': Line, c: Line, n: nat)
    requires l != l' && c != l && c != l' && n > 0
    ensures var a, b := Around(l, c, n), Around(l', c, n); Middle(a, b) == a && Middle(b, a) == b && ShareLine(a, b)
  {
    hide Middle;
    var a, b := Around(l, c, n), Around(l', c, n);
    assert a[n] == c == b[n];
    assert a[0] == l && b[0] == l' && a[|a| - 1] == l && b[|b| - 1] == l';
    hide Around;
    assert a[n] in a && b[n] in b;
    MiddleIs(a, b, 0, 0);
    assert a[0..|a| - 0] == a && b[0..|b| - 0] == b;
  }
}
