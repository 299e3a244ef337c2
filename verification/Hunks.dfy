/**
  Unified-diff hunks (internal/apply/diff.go) and the patch utility they are written for.
  The text of a hunk header, "@@ -oldStart,oldLen +newStart,newLen @@", is kept as its four
  numbers.
 */
module Hunks {
  import opened Common
  import opened EditGraph
  import opened EditScript
  import Myers

  const DIFF_CONTEXT: nat := 3

  datatype DiffLine =
    | Hunk(oldStart: int, oldLen: int, newStart: int, newLen: int)
    | Context(text: Line, oldNo: int, newNo: int)
    | Deleted(text: Line, oldNo: int)
    | Added(text: Line, newNo: int)

  // ------------------------------------------------------------ applying a patch

  /** A patch being applied: old lines consumed, new lines made, lines the current hunk still
      owes on each side, and whether a hunk was seen. */
  datatype Patching =
    | Patching(taken: nat, made: seq<Line>, needOld: int, needNew: int, started: bool)
    | Rejected

  /** The line a hunk starts at, counted from 0. By the POSIX.1-2017 diff utility ("Diff -u or
      -U Output Format") a range of no lines names the line before it. */
  function HunkTarget(start: int, len: int): int
  {
    if len == 0 then start else start - 1
  }

  /** One line of a patch, checked against everything it claims. A hunk may not start before
      the previous one is complete, nor touch it. */
  function PatchLine(a: seq<Line>, st: Patching, l: DiffLine): Patching
  {
    if st.Rejected? then Rejected
    else match l
      case Hunk(oldStart, oldLen, newStart, newLen) =>
        var target := HunkTarget(oldStart, oldLen);
        if st.needOld == 0 && st.needNew == 0 && 0 <= oldLen && 0 <= newLen &&
           st.taken <= target <= |a| && (st.started ==> st.taken < target) &&
           |st.made| + target - st.taken == HunkTarget(newStart, newLen)
        then Patching(target, st.made + a[st.taken..target], oldLen, newLen, true)
        else Rejected
      case Context(text, oldNo, newNo) =>
        if st.needOld > 0 && st.needNew > 0 && st.taken < |a| && a[st.taken] == text &&
           oldNo == st.taken + 1 && newNo == |st.made| + 1
        then Patching(st.taken + 1, st.made + [text], st.needOld - 1, st.needNew - 1, true)
        else Rejected
      case Deleted(text, oldNo) =>
        if st.needOld > 0 && st.taken < |a| && a[st.taken] == text && oldNo == st.taken + 1
        then Patching(st.taken + 1, st.made, st.needOld - 1, st.needNew, true)
        else Rejected
      case Added(text, newNo) =>
        if st.needNew > 0 && newNo == |st.made| + 1
        then Patching(st.taken, st.made + [text], st.needOld, st.needNew - 1, true)
        else Rejected
  }

  function PatchLines(a: seq<Line>, st: Patching, ls: seq<DiffLine>): Patching
  {
    if ls == [] then st else PatchLine(a, PatchLines(a, st, ls[..|ls| - 1]), ls[|ls| - 1])
  }

  /** Applies a unified diff to a; None when some line of it does not fit. */
  function Patch(a: seq<Line>, ls: seq<DiffLine>): Option<seq<Line>>
  {
    match PatchLines(a, Patching(0, [], 0, 0, false), ls)
    case Rejected => None
    case Patching(taken, made, needOld, needNew, _) =>
      if needOld == 0 && needNew == 0 && taken <= |a| then Some(made + a[taken..]) else None
  }

  lemma {:induction false} PatchConcat(a: seq<Line>, st: Patching, s: seq<DiffLine>, t: seq<DiffLine>)
    ensures PatchLines(a, st, s + t) == PatchLines(a, PatchLines(a, st, s), t)
    decreases |t|
  {
    if t == [] {
      assert s + t == s;
    } else {
      assert (s + t)[..|s + t| - 1] == s + t[..|t| - 1];
      PatchConcat(a, st, s, t[..|t| - 1]);
    }
  }

  lemma PatchOne(a: seq<Line>, st: Patching, l: DiffLine)
    ensures PatchLines(a, st, [l]) == PatchLine(a, st, l)
  {
    assert [l][..|[l]| - 1] == [];
    assert PatchLines(a, st, []) == st;
  }

  // ------------------------------------------------------------ scripts by index

  /** The i-th edit of a script: its cursor is in range and leads to the next one. */
  ghost predicate StepAt(es: seq<Edit>, a: seq<Line>, b: seq<Line>, i: nat)
    requires i < |es|
  {
    es[i].a <= |a| && es[i].b <= |b| && Fits(es[i], a, b) &&
    At(es, i + 1, |a|, |b|) == (NextA(es[i]), NextB(es[i]))
  }

  ghost predicate Steps(es: seq<Edit>, a: seq<Line>, b: seq<Line>)
  {
    At(es, 0, |a|, |b|) == (0, 0) && forall i :: 0 <= i < |es| ==> StepAt(es, a, b, i)
  }

  lemma TurnsBySteps(es: seq<Edit>, a: seq<Line>, b: seq<Line>)
    requires Turns(es, a, b)
    ensures Steps(es, a, b)
  {
    forall i | 0 <= i < |es|
      ensures StepAt(es, a, b, i)
    {
      ScriptSplit(es, a, b, 0, 0, |a|, |b|, i);
      ScriptMoves(es[i..], a, b, es[i].a, es[i].b, |a|, |b|);
      ScriptMoves(es[..i], a, b, 0, 0, es[i].a, es[i].b);
      assert es[i..][0] == es[i];
      var next := es[i..][1..];
      if i + 1 < |es| { assert next[0] == es[i + 1]; }
    }
  }

  lemma {:induction false} CursorInRange(es: seq<Edit>, a: seq<Line>, b: seq<Line>, i: nat)
    requires Steps(es, a, b) && i <= |es|
    ensures var (x, y) := At(es, i, |a|, |b|); 0 <= x <= |a| && 0 <= y <= |b|
  {
    if i < |es| { assert StepAt(es, a, b, i); }
  }

  ghost predicate AllKept(es: seq<Edit>, lo: nat, hi: nat)
    requires hi <= |es|
  {
    forall j :: lo <= j < hi ==> es[j].op.Keep?
  }

  /** A run of kept lines moves both cursors over the same text. */
  lemma {:induction false} KeptRun(es: seq<Edit>, a: seq<Line>, b: seq<Line>, lo: nat, hi: nat)
    requires Steps(es, a, b) && lo <= hi <= |es| && AllKept(es, lo, hi)
    ensures var (x, y) := At(es, lo, |a|, |b|); var (x2, y2) := At(es, hi, |a|, |b|);
            0 <= x <= x2 <= |a| &&
            0 <= y <= y2 <= |b| &&
            x2 - x == hi - lo == y2 - y &&
            a[x..x2] == b[y..y2]
    decreases hi - lo
  {
    CursorInRange(es, a, b, lo);
    if lo < hi {
      assert StepAt(es, a, b, lo);
      KeptRun(es, a, b, lo + 1, hi);
      var (x, y) := At(es, lo, |a|, |b|);
      var (x2, y2) := At(es, hi, |a|, |b|);
      assert a[x..x2] == [a[x]] + a[x + 1..x2];
      assert b[y..y2] == [b[y]] + b[y + 1..y2];
    }
  }

  // ------------------------------------------------------------ what hunks show

  function LineOf(e: Edit, a: seq<Line>, b: seq<Line>): DiffLine
    requires !e.op.Insert? ==> 0 <= e.a < |a|
    requires e.op.Insert? ==> 0 <= e.b < |b|
  {
    match e.op
    case Keep => Context(a[e.a], e.a + 1, e.b + 1)
    case Delete => Deleted(a[e.a], e.a + 1)
    case Insert => Added(b[e.b], e.b + 1)
  }

  /** The diff lines of edits lo to hi. */
  ghost function LinesOf(es: seq<Edit>, a: seq<Line>, b: seq<Line>, lo: nat, hi: nat): seq<DiffLine>
    requires Steps(es, a, b) && lo <= hi <= |es|
    decreases hi
  {
    if lo == hi then [] else
      assert StepAt(es, a, b, hi - 1);
      LinesOf(es, a, b, lo, hi - 1) + [LineOf(es[hi - 1], a, b)]
  }

  /** Edit i is within ctx edits of a change. */
  ghost predicate Near(es: seq<Edit>, ctx: nat, i: int)
  {
    exists j :: 0 <= j < |es| && !es[j].op.Keep? && j - ctx <= i <= j + ctx
  }

  /** The diff lines of the edits below hi that are near a change. */
  ghost function NearLines(es: seq<Edit>, a: seq<Line>, b: seq<Line>, ctx: nat, hi: nat): seq<DiffLine>
    requires Steps(es, a, b) && hi <= |es|
  {
    if hi == 0 then [] else
      assert StepAt(es, a, b, hi - 1);
      NearLines(es, a, b, ctx, hi - 1) + if Near(es, ctx, hi - 1) then [LineOf(es[hi - 1], a, b)] else []
  }

  /** A diff without its hunk headers. */
  function Bodies(ls: seq<DiffLine>): seq<DiffLine>
  {
    if ls == [] then []
    else Bodies(ls[..|ls| - 1]) + if ls[|ls| - 1].Hunk? then [] else [ls[|ls| - 1]]
  }

  lemma {:induction false} BodiesConcat(s: seq<DiffLine>, t: seq<DiffLine>)
    ensures Bodies(s + t) == Bodies(s) + Bodies(t)
    decreases |t|
  {
    if t == [] {
      assert s + t == s;
    } else {
      assert (s + t)[..|s + t| - 1] == s + t[..|t| - 1];
      BodiesConcat(s, t[..|t| - 1]);
    }
  }

  lemma {:induction false} LinesAreBodies(es: seq<Edit>, a: seq<Line>, b: seq<Line>, lo: nat, hi: nat)
    requires Steps(es, a, b) && lo <= hi <= |es|
    ensures Bodies(LinesOf(es, a, b, lo, hi)) == LinesOf(es, a, b, lo, hi)
    decreases hi
  {
    hide Steps, StepAt;
    if lo < hi {
      LinesAreBodies(es, a, b, lo, hi - 1);
      LinesOfPush(es, a, b, lo, hi);
    }
  }

  lemma LinesOfPush(es: seq<Edit>, a: seq<Line>, b: seq<Line>, lo: nat, hi: nat)
    requires Steps(es, a, b) && lo < hi <= |es|
    requires Bodies(LinesOf(es, a, b, lo, hi - 1)) == LinesOf(es, a, b, lo, hi - 1)
    ensures Bodies(LinesOf(es, a, b, lo, hi)) == LinesOf(es, a, b, lo, hi)
  {
    assert StepAt(es, a, b, hi - 1);
    var init, l := LinesOf(es, a, b, lo, hi - 1), LineOf(es[hi - 1], a, b);
    assert (init + [l])[..|init|] == init;
  }

  lemma {:induction false} NearLinesSkip(es: seq<Edit>, a: seq<Line>, b: seq<Line>, ctx: nat, lo: nat, hi: nat)
    requires Steps(es, a, b) && lo <= hi <= |es|
    requires forall i :: lo <= i < hi ==> !Near(es, ctx, i)
    ensures NearLines(es, a, b, ctx, hi) == NearLines(es, a, b, ctx, lo)
    decreases hi
  {
    if lo < hi {
      NearLinesSkip(es, a, b, ctx, lo, hi - 1);
    }
  }

  lemma {:induction false} NearLinesTake(es: seq<Edit>, a: seq<Line>, b: seq<Line>, ctx: nat, lo: nat, hi: nat)
    requires Steps(es, a, b) && lo <= hi <= |es|
    requires forall i :: lo <= i < hi ==> Near(es, ctx, i)
    ensures NearLines(es, a, b, ctx, hi) == NearLines(es, a, b, ctx, lo) + LinesOf(es, a, b, lo, hi)
    decreases hi
  {
    if lo < hi {
      NearLinesTake(es, a, b, ctx, lo, hi - 1);
    }
  }

  function Old(es: seq<Edit>, lo: nat, hi: nat): int
    requires lo <= hi <= |es|
    decreases hi
  {
    if lo == hi then 0 else Old(es, lo, hi - 1) + if es[hi - 1].op.Insert? then 0 else 1
  }

  function New(es: seq<Edit>, lo: nat, hi: nat): int
    requires lo <= hi <= |es|
    decreases hi
  {
    if lo == hi then 0 else New(es, lo, hi - 1) + if es[hi - 1].op.Delete? then 0 else 1
  }

  // ------------------------------------------------------------ one hunk

  /** The lines before a position of b. */
  function Upto(b: seq<Line>, y: int): seq<Line>
  {
    if 0 <= y <= |b| then b[..y] else b
  }

  /** The patch is between hunks, at edit i of the script. */
  ghost predicate PatchedTo(es: seq<Edit>, a: seq<Line>, b: seq<Line>, i: nat, st: Patching, needOld: int, needNew: int, started: bool)
    requires i <= |es|
  {
    var (x, y) := At(es, i, |a|, |b|);
    0 <= x && st == Patching(x, Upto(b, y), needOld, needNew, started)
  }

  /** The lines of edits lo to hi take the patch from one cursor to the other and pay off
      exactly their own counts. */
  lemma {:induction false} BodyPatches(es: seq<Edit>, a: seq<Line>, b: seq<Line>, lo: nat, hi: nat, st: Patching, restOld: nat, restNew: nat)
    requires Steps(es, a, b) && lo <= hi <= |es|
    requires PatchedTo(es, a, b, lo, st, Old(es, lo, hi) + restOld, New(es, lo, hi) + restNew, true)
    ensures PatchedTo(
              es, a, b, hi, PatchLines(a, st, LinesOf(es, a, b, lo, hi)), restOld, restNew, true)
    decreases hi
  {
    hide PatchLine, PatchLines, PatchedTo;
    if lo < hi {
      var e := es[hi - 1];
      BodyPatches(es, a, b, lo, hi - 1, st,
        restOld + if e.op.Insert? then 0 else 1, restNew + if e.op.Delete? then 0 else 1);
      assert StepAt(es, a, b, hi - 1);
      PatchLast(a, st, LinesOf(es, a, b, lo, hi - 1), LineOf(e, a, b));
      LinePatches(es, a, b, hi - 1, PatchLines(a, st, LinesOf(es, a, b, lo, hi - 1)), restOld, restNew);
    } else {
      NoLines(a, st);
    }
  }

  lemma PatchLast(a: seq<Line>, st: Patching, init: seq<DiffLine>, l: DiffLine)
    ensures PatchLines(a, st, init + [l]) == PatchLine(a, PatchLines(a, st, init), l)
  {
    assert (init + [l])[..|init|] == init;
  }

  lemma NoLines(a: seq<Line>, st: Patching)
    ensures PatchLines(a, st, []) == st
  {
  }

  /** The line of one edit pays off what the edit counts. */
  lemma LinePatches(es: seq<Edit>, a: seq<Line>, b: seq<Line>, i: nat, st: Patching, restOld: nat, restNew: nat)
    requires i < |es| && StepAt(es, a, b, i)
    requires var e := es[i];
             PatchedTo(es, a, b, i, st, restOld + (if e.op.Insert? then 0 else 1), restNew + (if e.op.Delete? then 0 else 1), true)
    ensures PatchedTo(
              es, a, b, i + 1, PatchLine(a, st, LineOf(es[i], a, b)), restOld, restNew, true)
  {
    var e := es[i];
    var (x, y) := At(es, i + 1, |a|, |b|);
    assert e.b < y ==> b[..y] == b[..e.b] + [b[e.b]];
  }

  /** The header of the hunk of edits start to end, which begins at cursor (x, y). */
  ghost function HeaderOf(es: seq<Edit>, a: seq<Line>, b: seq<Line>, start: nat, end: nat): DiffLine
    requires start <= end <= |es|
  {
    var (x, y) := At(es, start, |a|, |b|);
    var oldLen, newLen := Old(es, start, end), New(es, start, end);
    Hunk(if oldLen == 0 then x else x + 1, oldLen, if newLen == 0 then y else y + 1, newLen)
  }

  /** A header takes the patch from edit i over the kept lines in front of its hunk. */
  lemma HeaderPatches(es: seq<Edit>, a: seq<Line>, b: seq<Line>, i: nat, start: nat, end: nat, st: Patching, started: bool)
    requires Steps(es, a, b) && i <= start <= end <= |es| && AllKept(es, i, start)
    requires PatchedTo(es, a, b, i, st, 0, 0, started) && (started ==> i < start)
    ensures PatchedTo(
              es, a, b, start, PatchLine(a, st, HeaderOf(es, a, b, start, end)), Old(es, start, end), New(es, start, end), true)
  {
    KeptRun(es, a, b, i, start);
    CountsNonNegative(es, start, end);
    var (x0, y0) := At(es, i, |a|, |b|);
    var (x, y) := At(es, start, |a|, |b|);
    assert b[..y] == b[..y0] + b[y0..y];
  }

  /** A header followed by its lines takes the patch from edit i to the end of the hunk. */
  lemma HunkPatches(es: seq<Edit>, a: seq<Line>, b: seq<Line>, i: nat, start: nat, end: nat, st: Patching, started: bool)
    requires Steps(es, a, b) && i <= start <= end <= |es| && AllKept(es, i, start)
    requires PatchedTo(es, a, b, i, st, 0, 0, started) && (started ==> i < start)
    ensures PatchedTo(
              es, a, b, end, PatchLines(a, st, [HeaderOf(es, a, b, start, end)] + LinesOf(es, a, b, start, end)), 0, 0, true)
  {
    hide PatchLine, PatchLines, LinesOf, PatchedTo;
    var header := HeaderOf(es, a, b, start, end);
    HeaderPatches(es, a, b, i, start, end, st, started);
    PatchOne(a, st, header);
    BodyPatches(es, a, b, start, end, PatchLine(a, st, header), 0, 0);
    PatchConcat(a, st, [header], LinesOf(es, a, b, start, end));
  }

  lemma {:induction false} CountsNonNegative(es: seq<Edit>, lo: nat, hi: nat)
    requires lo <= hi <= |es|
    ensures Old(es, lo, hi) >= 0 && New(es, lo, hi) >= 0
    decreases hi
  {
    if lo < hi { CountsNonNegative(es, lo, hi - 1); }
  }

  // ------------------------------------------------------------ rendering

  /** The first change at or after i. */
  method NextChange(es: seq<Edit>, i: nat) returns (j: nat)
    requires i <= |es|
    ensures i <= j <= |es| && AllKept(es, i, j) && (j < |es| ==> !es[j].op.Keep?)
  {
    j := i;
    while j < |es| && es[j].op.Keep?
      invariant i <= j <= |es| && AllKept(es, i, j)
    {
      j := j + 1;
    }
  }

  /** The end of the hunk whose first change is i: changes at most 2 * ctx kept lines apart
      share a hunk, and at most ctx kept lines follow the last one. */
  method HunkEnd(es: seq<Edit>, i: nat, ctx: nat) returns (end: nat)
    requires i < |es| && !es[i].op.Keep?
    ensures i < end <= |es|
    ensures forall j :: i <= j < end ==> Near(es, ctx, j)
    ensures end < |es| ==> forall j :: 0 <= j < end && !es[j].op.Keep? ==> j + ctx < end
    ensures forall j :: end <= j < |es| && !es[j].op.Keep? ==> end < j - ctx
  {
    end := i;
    while end < |es|
      invariant i <= end <= |es|
      invariant end < |es| && end > i ==> !es[end].op.Keep? || !es[end - 1].op.Keep?
      invariant forall j :: i <= j < end ==> Near(es, ctx, j)
      decreases |es| - end
    {
      if !es[end].op.Keep? {
        assert Near(es, ctx, end);
        end := end + 1;
        continue;
      }
      var run := NextChange(es, end);
      if run >= |es| || run - end > 2 * ctx {
        var last := end - 1;
        var stop := end + if ctx < run - end then ctx else run - end;
        forall j | i <= j < stop
          ensures Near(es, ctx, j)
        {
          if j >= end { assert !es[last].op.Keep? && last - ctx <= j <= last + ctx; }
        }
        end := stop;
        break;
      }
      forall j | i <= j < run
        ensures Near(es, ctx, j)
      {
        if j >= end {
          assert !es[end - 1].op.Keep? && !es[run].op.Keep?;
          assert j <= end - 1 + ctx || run - ctx <= j;
        }
      }
      end := run;
    }
  }

  /** The hunk of edits start to end: its header, then its lines. */
  method RenderHunk(es: seq<Edit>, a: seq<Line>, b: seq<Line>, start: nat, end: nat) returns (out: seq<DiffLine>)
    requires Steps(es, a, b) && start < end <= |es|
    ensures out == [HeaderOf(es, a, b, start, end)] + LinesOf(es, a, b, start, end)
  {
    var oldStart, newStart, oldLen, newLen := 0, 0, 0, 0;
    var first := true;
    var body: seq<DiffLine> := [];
    for t := start to end
      invariant body == LinesOf(es, a, b, start, t)
      invariant oldLen == Old(es, start, t) && newLen == New(es, start, t)
      invariant first <==> t == start
      invariant !first ==> (oldStart - 1, newStart - 1) == At(es, start, |a|, |b|)
    {
      assert StepAt(es, a, b, t);
      var e := es[t];
      if first {
        oldStart, newStart, first := e.a + 1, e.b + 1, false;
      }
      match e.op {
        case Keep =>
          oldLen := oldLen + 1;
          newLen := newLen + 1;
          body := body + [Context(a[e.a], e.a + 1, e.b + 1)];
        case Delete =>
          oldLen := oldLen + 1;
          body := body + [Deleted(a[e.a], e.a + 1)];
        case Insert =>
          newLen := newLen + 1;
          body := body + [Added(b[e.b], e.b + 1)];
      }
    }
    if oldLen == 0 {
      oldStart := oldStart - 1;
    }
    if newLen == 0 {
      newStart := newStart - 1;
    }
    out := [Hunk(oldStart, oldLen, newStart, newLen)] + body;
  }

  /** Renders a script as hunks with ctx lines of context. Applying them to a gives b, and
      they show exactly the edits within ctx of a change. */
  method Hunks(es: seq<Edit>, a: seq<Line>, b: seq<Line>, ctx: nat) returns (out: seq<DiffLine>)
    requires Turns(es, a, b)
    ensures Steps(es, a, b)
    ensures Patch(a, out) == Some(b)
    ensures Bodies(out) == NearLines(es, a, b, ctx, |es|)
  {
    hide Turns, PatchLines, LinesOf;
    TurnsBySteps(es, a, b);
    ghost var unpatched := Patching(0, [], 0, 0, false);
    out := [];
    PatchNothing(es, a, b, unpatched);
    var i := 0;
    while i < |es|
      invariant 0 <= i <= |es| && (out == [] ==> i == 0)
      invariant PatchedTo(es, a, b, i, PatchLines(a, unpatched, out), 0, 0, out != [])
      invariant Bodies(out) == NearLines(es, a, b, ctx, i)
      invariant i < |es| ==> forall j :: 0 <= j < i && !es[j].op.Keep? ==> j + ctx < i
      invariant out != [] ==> forall j :: i <= j < |es| && !es[j].op.Keep? ==> i < j - ctx
    {
      var change := NextChange(es, i);
      if change >= |es| {
        NearLinesSkip(es, a, b, ctx, i, |es|);
        break;
      }
      var start := if change < ctx then 0 else change - ctx;
      var end := HunkEnd(es, change, ctx);
      var hunk := RenderHunk(es, a, b, start, end);
      HunkPatches(es, a, b, i, start, end, PatchLines(a, unpatched, out), out != []);
      PatchConcat(a, unpatched, out, hunk);
      HunkShows(es, a, b, ctx, i, change, start, end);
      BodiesConcat(out, hunk);
      BodiesOfHunk(es, a, b, start, end, hunk[0]);
      out := out + hunk;
      i := end;
    }
    PatchEnds(es, a, b, i, out);
  }

  lemma PatchNothing(es: seq<Edit>, a: seq<Line>, b: seq<Line>, st: Patching)
    requires Steps(es, a, b) && st == Patching(0, [], 0, 0, false)
    ensures PatchedTo(
              es, a, b, 0, PatchLines(a, st, []), 0, 0, false)
  {
  }

  lemma PatchEnds(es: seq<Edit>, a: seq<Line>, b: seq<Line>, i: nat, out: seq<DiffLine>)
    requires Steps(es, a, b) && i <= |es| && AllKept(es, i, |es|)
    requires PatchedTo(es, a, b, i, PatchLines(a, Patching(0, [], 0, 0, false), out), 0, 0, out != [])
    ensures Patch(a, out) == Some(b)
  {
    KeptRun(es, a, b, i, |es|);
    var (x, y) := At(es, i, |a|, |b|);
    assert a[x..] == a[x..|a|] && b == b[..y] + b[y..|b|];
  }

  /** From the end of one hunk to the end of the next, exactly the edits of the hunk are near
      a change. */
  lemma HunkShows(es: seq<Edit>, a: seq<Line>, b: seq<Line>, ctx: nat, i: nat, change: nat, start: nat, end: nat)
    requires Steps(es, a, b) && i <= start <= change < end <= |es|
    requires AllKept(es, i, change) && !es[change].op.Keep?
    requires start == if change < ctx then 0 else change - ctx
    requires forall j :: 0 <= j < i && !es[j].op.Keep? ==> j + ctx < i
    requires forall j :: change <= j < end ==> Near(es, ctx, j)
    ensures NearLines(es, a, b, ctx, end) == NearLines(es, a, b, ctx, i) + LinesOf(es, a, b, start, end)
  {
    forall j | start <= j < change
      ensures Near(es, ctx, j)
    {
      assert change - ctx <= j <= change + ctx;
    }
    NearLinesSkip(es, a, b, ctx, i, start);
    NearLinesTake(es, a, b, ctx, start, end);
  }

  lemma BodiesOfHunk(es: seq<Edit>, a: seq<Line>, b: seq<Line>, start: nat, end: nat, header: DiffLine)
    requires Steps(es, a, b) && start <= end <= |es| && header.Hunk?
    ensures Bodies([header] + LinesOf(es, a, b, start, end)) == LinesOf(es, a, b, start, end)
  {
    LinesAreBodies(es, a, b, start, end);
    BodiesConcat([header], LinesOf(es, a, b, start, end));
    assert [header][..0] == [];
  }

  // ------------------------------------------------------------ a whole diff

  function AddedIn(ls: seq<DiffLine>): nat
  {
    if ls == [] then 0 else AddedIn(ls[..|ls| - 1]) + if ls[|ls| - 1].Added? then 1 else 0
  }

  function DeletedIn(ls: seq<DiffLine>): nat
  {
    if ls == [] then 0 else DeletedIn(ls[..|ls| - 1]) + if ls[|ls| - 1].Deleted? then 1 else 0
  }

  lemma TallyPush(ls: seq<DiffLine>, l: DiffLine)
    ensures AddedIn(ls + [l]) == AddedIn(ls) + if l.Added? then 1 else 0
    ensures DeletedIn(ls + [l]) == DeletedIn(ls) + if l.Deleted? then 1 else 0
  {
    assert (ls + [l])[..|ls|] == ls;
  }

  lemma {:induction false} HeadersAddNothing(ls: seq<DiffLine>)
    ensures AddedIn(ls) == AddedIn(Bodies(ls)) &&
            DeletedIn(ls) == DeletedIn(Bodies(ls))
    decreases |ls|
  {
    if ls != [] {
      var init := Bodies(ls[..|ls| - 1]);
      HeadersAddNothing(ls[..|ls| - 1]);
      TallyPush(init, ls[|ls| - 1]);
      assert init + [] == init;
    }
  }

  /** Every change is shown, once. */
  lemma {:induction false} ChangesAreShown(es: seq<Edit>, a: seq<Line>, b: seq<Line>, ctx: nat, hi: nat)
    requires Steps(es, a, b) && hi <= |es|
    ensures AddedIn(NearLines(es, a, b, ctx, hi)) == Count(es[..hi], Insert)
    ensures DeletedIn(NearLines(es, a, b, ctx, hi)) == Count(es[..hi], Delete)
    decreases hi
  {
    hide AddedIn, DeletedIn, Count, NearLines, Near;
    if hi > 0 {
      var e := es[hi - 1];
      ChangesAreShown(es, a, b, ctx, hi - 1);
      assert StepAt(es, a, b, hi - 1);
      assert es[..hi] == es[..hi - 1] + [e];
      CountPush(es[..hi - 1], e, Insert);
      CountPush(es[..hi - 1], e, Delete);
      NearLinesPush(es, a, b, ctx, hi);
      TallyPush(NearLines(es, a, b, ctx, hi - 1), LineOf(e, a, b));
    } else {
      NothingShown(es, a, b, ctx);
    }
  }

  /** One more edit shows its line if it is near a change, which a change is. */
  lemma NearLinesPush(es: seq<Edit>, a: seq<Line>, b: seq<Line>, ctx: nat, hi: nat)
    requires Steps(es, a, b) && 0 < hi <= |es| && StepAt(es, a, b, hi - 1)
    ensures var init, e := NearLines(es, a, b, ctx, hi - 1), es[hi - 1];
            NearLines(es, a, b, ctx, hi) == init + [LineOf(e, a, b)] ||
            (e.op.Keep? && NearLines(es, a, b, ctx, hi) == init)
  {
    var init := NearLines(es, a, b, ctx, hi - 1);
    assert init + [] == init;
    assert !es[hi - 1].op.Keep? ==> hi - 1 - ctx <= hi - 1 <= hi - 1 + ctx;
  }

  lemma NothingShown(es: seq<Edit>, a: seq<Line>, b: seq<Line>, ctx: nat)
    requires Steps(es, a, b)
    ensures AddedIn(NearLines(es, a, b, ctx, 0)) == Count(es[..0], Insert) == 0
    ensures DeletedIn(NearLines(es, a, b, ctx, 0)) == Count(es[..0], Delete) == 0
  {
  }

  /** Lines of a diff without its headers: in the order of the script, and of every edit exactly
      if a change is at most ctx edits before or after it. */
  ghost predicate ShowsWithin(es: seq<Edit>, a: seq<Line>, b: seq<Line>, shown: seq<DiffLine>, ctx: nat)
  {
    exists at: seq<int> :: |at| == |shown| && InOrder(at, |es|) &&
      (forall k :: 0 <= k < |at| ==> ShownAs(es, a, b, shown[k], at[k])) &&
      forall i :: 0 <= i < |es| ==> (i in at <==> HasChange(es, i - ctx, i + ctx))
  }

  /** Positions of a script, from the first to the last. */
  ghost predicate InOrder(at: seq<int>, n: nat)
  {
    (forall k :: 0 <= k < |at| ==> 0 <= at[k] < n) && forall j, k :: 0 <= j < k < |at| ==> at[j] < at[k]
  }

  /** A line of a diff is the edit at position i. */
  ghost predicate ShownAs(es: seq<Edit>, a: seq<Line>, b: seq<Line>, line: DiffLine, i: int)
  {
    0 <= i < |es| && StepAt(es, a, b, i) && line == LineOf(es[i], a, b)
  }

  /** One of the edits from position lo to position hi changes something. */
  ghost predicate HasChange(es: seq<Edit>, lo: int, hi: int)
  {
    exists j :: 0 <= j < |es| && lo <= j <= hi && es[j].op != Keep
  }

  /** The positions below hi that are near a change. */
  ghost function NearPositions(es: seq<Edit>, ctx: nat, hi: nat): seq<int>
  {
    if hi == 0 then [] else NearPositions(es, ctx, hi - 1) + if Near(es, ctx, hi - 1) then [hi - 1] else []
  }

  lemma {:induction false} NearPositionsAre(es: seq<Edit>, ctx: nat, hi: nat)
    ensures InOrder(NearPositions(es, ctx, hi), hi)
    ensures forall i :: 0 <= i < hi ==> (i in NearPositions(es, ctx, hi) <==> Near(es, ctx, i))
  {
    hide Near;
    if hi > 0 { NearPositionsAre(es, ctx, hi - 1); }
  }

  lemma {:induction false} NearLinesSize(es: seq<Edit>, a: seq<Line>, b: seq<Line>, ctx: nat, hi: nat)
    requires Steps(es, a, b) && hi <= |es|
    ensures |NearLines(es, a, b, ctx, hi)| == |NearPositions(es, ctx, hi)|
  {
    hide Near, Steps;
    if hi > 0 { NearLinesSize(es, a, b, ctx, hi - 1); }
  }

  lemma {:induction false} NearLinesAt(es: seq<Edit>, a: seq<Line>, b: seq<Line>, ctx: nat, hi: nat, k: nat)
    requires Steps(es, a, b) && hi <= |es| && k < |NearPositions(es, ctx, hi)|
    ensures |NearLines(es, a, b, ctx, hi)| == |NearPositions(es, ctx, hi)| && ShownAs(es, a, b, NearLines(es, a, b, ctx, hi)[k], NearPositions(es, ctx, hi)[k])
  {
    hide Near;
    NearLinesSize(es, a, b, ctx, hi);
    NearLinesSize(es, a, b, ctx, hi - 1);
    assert StepAt(es, a, b, hi - 1);
    hide Steps;
    if k < |NearPositions(es, ctx, hi - 1)| { NearLinesAt(es, a, b, ctx, hi - 1, k); }
  }

  lemma ShownExactly(es: seq<Edit>, a: seq<Line>, b: seq<Line>, ctx: nat, shown: seq<DiffLine>)
    requires Steps(es, a, b) && shown == NearLines(es, a, b, ctx, |es|)
    ensures ShowsWithin(es, a, b, shown, ctx)
  {
    hide Steps, InOrder, ShownAs, NearLines, NearPositions;
    var at := NearPositions(es, ctx, |es|);
    NearPositionsAre(es, ctx, |es|);
    NearLinesSize(es, a, b, ctx, |es|);
    forall k | 0 <= k < |at|
      ensures ShownAs(es, a, b, shown[k], at[k])
    {
      NearLinesAt(es, a, b, ctx, |es|, k);
    }
    forall i | 0 <= i < |es|
      ensures i in at <==> HasChange(es, i - ctx, i + ctx)
    {
      assert i in at <==> Near(es, ctx, i);
      if HasChange(es, i - ctx, i + ctx) {
        var j :| 0 <= j < |es| && i - ctx <= j <= i + ctx && es[j].op != Keep;
        assert j - ctx <= i <= j + ctx;
      }
      if Near(es, ctx, i) {
        var j :| 0 <= j < |es| && !es[j].op.Keep? && j - ctx <= i <= j + ctx;
      }
    }
  }

  /** The diff of two files, already split into lines: it patches a into b, shows exactly what
      lies within three lines of a change, counts the lines it adds and removes, and up to the
      distance limit no diff changes fewer; beyond, it replaces what is left after trimming. */
  method DiffLines(a: seq<Line>, b: seq<Line>) returns (lines: seq<DiffLine>, added: nat, removed: nat)
    ensures Patch(a, lines) == Some(b)
    ensures exists es :: Turns(es, a, b) && ShowsWithin(es, a, b, Bodies(lines), 3)
    ensures added == AddedIn(lines) && removed == DeletedIn(lines)
    ensures added - removed == |b| - |a|
    ensures Distance(a, b) <= 2000 ==>
              added == |b| - Lcs(a, b, |a|, |b|) && removed == |a| - Lcs(a, b, |a|, |b|)
    ensures Distance(a, b) > 2000 ==> added == |Middle(b, a)| && removed == |Middle(a, b)|
  {
    hide Turns, Patch, Middle, Lcs, Distance, Shortest, ShareLine, Changes, Steps, ShowsWithin, NearLines;
    var es := Myers.Myers(a, b);
    added, removed := 0, 0;
    for i := 0 to |es|
      invariant added == Count(es[..i], Insert) && removed == Count(es[..i], Delete)
    {
      assert es[..i + 1] == es[..i] + [es[i]];
      CountPush(es[..i], es[i], Insert);
      CountPush(es[..i], es[i], Delete);
      match es[i].op {
        case Insert => added := added + 1;
        case Delete => removed := removed + 1;
        case Keep =>
      }
    }
    assert es[..|es|] == es;
    TurnsMoves(es, a, b);
    CountsAre(es, a, b);
    lines := Hunks(es, a, b, DIFF_CONTEXT);
    HeadersAddNothing(lines);
    ChangesAreShown(es, a, b, DIFF_CONTEXT, |es|);
    ShownExactly(es, a, b, DIFF_CONTEXT, Bodies(lines));
    assert ShowsWithin(es, a, b, Bodies(lines), 3);
  }

  lemma TurnsMoves(es: seq<Edit>, a: seq<Line>, b: seq<Line>)
    requires Turns(es, a, b)
    ensures Count(es, Insert) - Count(es, Delete) == |b| - |a|
    ensures Changes(es) == Count(es, Insert) + Count(es, Delete)
  {
    ScriptMoves(es, a, b, 0, 0, |a|, |b|);
  }

  /** The counts of the insertions and the deletions of a script, from their sum and its ends. */
  lemma CountsAre(es: seq<Edit>, a: seq<Line>, b: seq<Line>)
    requires Turns(es, a, b)
    ensures Changes(es) == Distance(a, b) ==>
              Count(es, Insert) == |b| - Lcs(a, b, |a|, |b|) && Count(es, Delete) == |a| - Lcs(a, b, |a|, |b|)
    ensures Changes(es) == |Middle(a, b)| + |Middle(b, a)| ==>
              Count(es, Insert) == |Middle(b, a)| && Count(es, Delete) == |Middle(a, b)|
  {
    hide Turns, Changes, Count, Middle, Lcs;
    TurnsMoves(es, a, b);
    MiddleSizes(a, b);
  }
}
