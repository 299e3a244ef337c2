/**
  Smooth weighted round robin as a function (internal/balancer/lb.go): the specification of
  the round-robin pick and of the weighted hash map. ws holds one weight per server; a server
  that may not be picked has weight 0.
 */
module RoundRobin {

  // ------------------------------------------------------------ sums

  function Sum(s: seq<int>): int
  {
    if s == [] then 0 else Sum(s[..|s| - 1]) + s[|s| - 1]
  }

  lemma {:induction false} SumUpdate(s: seq<int>, i: nat, x: int)
    requires i < |s|
    ensures Sum(s[i := x]) == Sum(s) - s[i] + x
  {
    var t := s[i := x];
    if i == |s| - 1 {
      assert t[..|t| - 1] == s[..|s| - 1];
    } else {
      assert t[..|t| - 1] == s[..|s| - 1][i := x];
      SumUpdate(s[..|s| - 1], i, x);
    }
  }

  lemma {:induction false} SumAdd(s: seq<int>, t: seq<int>, r: seq<int>)
    requires |s| == |t| == |r| && forall i :: 0 <= i < |s| ==> r[i] == s[i] + t[i]
    ensures Sum(r) == Sum(s) + Sum(t)
  {
    if s != [] {
      SumAdd(s[..|s| - 1], t[..|s| - 1], r[..|s| - 1]);
    }
  }

  lemma {:induction false} SumZeros(s: seq<int>)
    requires forall i :: 0 <= i < |s| ==> s[i] == 0
    ensures Sum(s) == 0
  {
    if s != [] { SumZeros(s[..|s| - 1]); }
  }

  /** Terms that are not negative and sum to nothing are nothing. */
  lemma {:induction false} SumOfNothing(s: seq<int>)
    requires forall i :: 0 <= i < |s| ==> s[i] >= 0
    ensures Sum(s) >= 0
    ensures Sum(s) == 0 ==> forall i :: 0 <= i < |s| ==> s[i] == 0
  {
    if s != [] { SumOfNothing(s[..|s| - 1]); }
  }

  lemma {:induction false} SumNotPositive(s: seq<int>)
    requires forall i :: 0 <= i < |s| ==> s[i] <= 0
    ensures Sum(s) <= 0
  {
    if s != [] { SumNotPositive(s[..|s| - 1]); }
  }

  lemma {:induction false} SumAtLeast(s: seq<int>, i: nat)
    requires i < |s| && forall j :: 0 <= j < |s| ==> s[j] >= 0
    ensures Sum(s) >= s[i]
  {
    SumOfNothing(s[..|s| - 1]);
    if i < |s| - 1 { SumAtLeast(s[..|s| - 1], i); }
  }

  // ------------------------------------------------------------ one pick

  type Weights = ws: seq<int> | forall i :: 0 <= i < |ws| ==> ws[i] >= 0

  /** Server i may be picked: it has weight and is not the excluded one. */
  predicate Eligible(ws: Weights, ex: int, i: int)
  {
    0 <= i < |ws| && i != ex && ws[i] > 0
  }

  /** The current weights raised by the weights; unusable servers start over, the excluded one
      keeps its place. */
  function Raised(ws: Weights, cw: seq<int>, ex: int): (r: seq<int>)
    requires |cw| == |ws|
    ensures |r| == |ws|
  {
    seq(|ws|, i requires 0 <= i < |ws| => if i == ex then cw[i] else if ws[i] == 0 then 0 else cw[i] + ws[i])
  }

  /** The first of the eligible servers below n with the highest current weight; -1 if none. */
  function Best(ws: Weights, r: seq<int>, ex: int, n: nat): (best: int)
    requires n <= |ws| == |r|
    ensures -1 <= best < n
  {
    if n == 0 then -1
    else
      var b := Best(ws, r, ex, n - 1);
      if Eligible(ws, ex, n - 1) && (b < 0 || r[n - 1] > r[b]) then n - 1 else b
  }

  lemma {:induction false} BestIsFirstHighest(ws: Weights, r: seq<int>, ex: int, n: nat)
    requires n <= |ws| == |r|
    ensures var best := Best(ws, r, ex, n);
            (best >= 0 <==> exists i :: 0 <= i < n && Eligible(ws, ex, i)) &&
            (best >= 0 ==> Eligible(ws, ex, best)) &&
            forall i :: 0 <= i < n && Eligible(ws, ex, i) ==> r[i] <= r[best] && (i < best ==> r[i] < r[best])
  {
    if n > 0 {
      BestIsFirstHighest(ws, r, ex, n - 1);
      assert forall i :: 0 <= i < n - 1 && Eligible(ws, ex, i) ==> i < n && Eligible(ws, ex, i);
    }
  }

  /** Sum of the weights of the eligible servers below n. */
  function EligibleTotal(ws: Weights, ex: int, n: nat): nat
    requires n <= |ws|
  {
    if n == 0 then 0 else EligibleTotal(ws, ex, n - 1) + if n - 1 == ex then 0 else ws[n - 1]
  }

  /** One pick: the new current weights and the server picked (-1 if none). */
  function Step(ws: Weights, cw: seq<int>, ex: int): (res: (seq<int>, int))
    requires |cw| == |ws|
    ensures |res.0| == |ws| && -1 <= res.1 < |ws|
  {
    var r := Raised(ws, cw, ex);
    var best := Best(ws, r, ex, |ws|);
    (if best < 0 then r else r[best := r[best] - EligibleTotal(ws, ex, |ws|)], best)
  }

  lemma ScanStart(ws: Weights, cw: seq<int>, ex: int)
    requires |cw| == |ws|
    ensures EligibleTotal(ws, ex, 0) == 0 && Best(ws, Raised(ws, cw, ex), ex, 0) == -1
  {
  }

  /** One server of the scan that makes a pick. */
  lemma ScanStep(ws: Weights, cw: seq<int>, ex: int, i: nat)
    requires i < |ws| == |cw|
    ensures var r := Raised(ws, cw, ex); var b := Best(ws, r, ex, i);
            (r[i] == if i == ex then cw[i] else if ws[i] == 0 then 0 else cw[i] + ws[i]) &&
            (EligibleTotal(ws, ex, i + 1) == EligibleTotal(ws, ex, i) + if i == ex then 0 else ws[i]) &&
            (Best(ws, r, ex, i + 1) == if i != ex && ws[i] > 0 && (b < 0 || r[i] > r[b]) then i else b)
  {
  }

  /** The current weights in the middle of a scan: raised below i, as before from i on. */
  function Mixed(raised: seq<int>, cw: seq<int>, i: nat): (m: seq<int>)
    requires i <= |cw| == |raised|
    ensures |m| == |cw|
  {
    raised[..i] + cw[i..]
  }

  lemma MixedStep(raised: seq<int>, cw: seq<int>, i: nat)
    requires i < |cw| == |raised|
    ensures Mixed(raised, cw, i)[i] == cw[i] && Mixed(raised, cw, i)[i := raised[i]] == Mixed(raised, cw, i + 1)
  {
  }

  lemma MixedAt(raised: seq<int>, cw: seq<int>, i: nat, j: nat)
    requires j < i <= |cw| == |raised|
    ensures Mixed(raised, cw, i)[j] == raised[j]
  {
  }

  lemma MixedEnds(raised: seq<int>, cw: seq<int>)
    requires |cw| == |raised|
    ensures Mixed(raised, cw, 0) == cw && Mixed(raised, cw, |cw|) == raised
  {
  }

  lemma StepOf(ws: Weights, cw: seq<int>, ex: int)
    requires |cw| == |ws|
    ensures var r := Raised(ws, cw, ex); var best := Best(ws, r, ex, |ws|);
            Step(ws, cw, ex) == (if best < 0 then r else r[best := r[best] - EligibleTotal(ws, ex, |ws|)], best)
  {
  }

  /** Sum of the current weights of the eligible servers below n. */
  function EligibleSum(ws: Weights, cw: seq<int>, ex: int, n: nat): int
    requires n <= |ws| == |cw|
  {
    if n == 0 then 0 else EligibleSum(ws, cw, ex, n - 1) + if Eligible(ws, ex, n - 1) then cw[n - 1] else 0
  }

  lemma {:induction false} RaisedSum(ws: Weights, cw: seq<int>, ex: int, n: nat)
    requires n <= |ws| == |cw|
    ensures EligibleSum(ws, Raised(ws, cw, ex), ex, n) == EligibleSum(ws, cw, ex, n) + EligibleTotal(ws, ex, n)
  {
    if n > 0 { RaisedSum(ws, cw, ex, n - 1); }
  }

  lemma {:induction false} EligibleSumUpdate(ws: Weights, cw: seq<int>, ex: int, n: nat, i: nat, x: int)
    requires n <= |ws| == |cw| && i < n && Eligible(ws, ex, i)
    ensures EligibleSum(ws, cw[i := x], ex, n) == EligibleSum(ws, cw, ex, n) - cw[i] + x
  {
    if i < n - 1 { EligibleSumUpdate(ws, cw, ex, n - 1, i, x); } else { EligibleSumSame(ws, cw, cw[i := x], ex, n - 1); }
  }

  lemma {:induction false} EligibleSumSame(ws: Weights, cw: seq<int>, r: seq<int>, ex: int, n: nat)
    requires n <= |ws| == |cw| == |r| && forall j :: 0 <= j < n ==> r[j] == cw[j]
    ensures EligibleSum(ws, r, ex, n) == EligibleSum(ws, cw, ex, n)
  {
    if n > 0 { EligibleSumSame(ws, cw, r, ex, n - 1); }
  }

  lemma {:induction false} NoneEligible(ws: Weights, ex: int, n: nat)
    requires n <= |ws| && forall i :: 0 <= i < n ==> !Eligible(ws, ex, i)
    ensures EligibleTotal(ws, ex, n) == 0
  {
    if n > 0 {
      NoneEligible(ws, ex, n - 1);
      assert !Eligible(ws, ex, n - 1);
    }
  }

  /** One pick, whoever is excluded: the eligible servers' current weights keep their sum, the
      excluded one keeps its place, and one that takes nothing starts over from 0. */
  lemma StepConserves(ws: Weights, cw: seq<int>, ex: int)
    requires |cw| == |ws|
    ensures var r := Step(ws, cw, ex).0;
            EligibleSum(ws, r, ex, |ws|) == EligibleSum(ws, cw, ex, |ws|) &&
            forall i :: 0 <= i < |ws| ==> (i == ex ==> r[i] == cw[i]) && (i != ex && ws[i] == 0 ==> r[i] == 0)
  {
    var raised := Raised(ws, cw, ex);
    var best := Best(ws, raised, ex, |ws|);
    BestIsFirstHighest(ws, raised, ex, |ws|);
    RaisedSum(ws, cw, ex, |ws|);
    if best >= 0 {
      EligibleSumUpdate(ws, raised, ex, |ws|, best, raised[best] - EligibleTotal(ws, ex, |ws|));
    } else {
      NoneEligible(ws, ex, |ws|);
    }
  }

  // ------------------------------------------------------------ runs from zero

  function Total(ws: Weights): int { Sum(ws) }

  lemma {:induction false} EligibleTotalIsSum(ws: Weights, n: nat)
    requires n <= |ws|
    ensures EligibleTotal(ws, -1, n) == Sum(ws[..n])
  {
    if n > 0 {
      EligibleTotalIsSum(ws, n - 1);
      assert ws[..n][..n - 1] == ws[..n - 1];
    }
  }

  /** Current weights after k picks from zero, nothing excluded. */
  function Cw(ws: Weights, k: nat): (cw: seq<int>)
    ensures |cw| == |ws|
  {
    if k == 0 then seq(|ws|, _ => 0) else Step(ws, Cw(ws, k - 1), -1).0
  }

  /** The k-th pick, counted from 0. */
  function Pick(ws: Weights, k: nat): (i: int)
    ensures -1 <= i < |ws|
  {
    Step(ws, Cw(ws, k), -1).1
  }

  /** How often server i is picked in picks lo to hi. */
  function PicksOf(ws: Weights, i: int, lo: nat, hi: nat): nat
    requires lo <= hi
  {
    if lo == hi then 0 else PicksOf(ws, i, lo, hi - 1) + if Pick(ws, hi - 1) == i then 1 else 0
  }

  lemma {:induction false} PicksSplit(ws: Weights, i: int, lo: nat, mid: nat, hi: nat)
    requires lo <= mid <= hi
    ensures PicksOf(ws, i, lo, hi) == PicksOf(ws, i, lo, mid) + PicksOf(ws, i, mid, hi)
    decreases hi
  {
    if mid < hi { PicksSplit(ws, i, lo, mid, hi - 1); }
  }

  lemma {:induction false} UnusableStaysZero(ws: Weights, k: nat, i: nat)
    requires i < |ws| && ws[i] == 0
    ensures Cw(ws, k)[i] == 0
  {
    if k > 0 {
      UnusableStaysZero(ws, k - 1, i);
      BestIsFirstHighest(ws, Raised(ws, Cw(ws, k - 1), -1), -1, |ws|);
    }
  }

  /** While some server has weight, every pick picks one of positive weight, which has a
      positive current weight when it is picked. */
  lemma PickIsPositive(ws: Weights, k: nat)
    requires Total(ws) > 0 && Sum(Cw(ws, k)) == 0
    ensures var r := Raised(ws, Cw(ws, k), -1); var p := Pick(ws, k);
            0 <= p &&
            ws[p] > 0 &&
            r[p] >= 1 &&
            Sum(r) == Total(ws) == EligibleTotal(ws, -1, |ws|)
  {
    var cw := Cw(ws, k);
    var r := Raised(ws, cw, -1);
    var p := Pick(ws, k);
    forall i | 0 <= i < |ws|
      ensures r[i] == cw[i] + ws[i]
    {
      if ws[i] == 0 { UnusableStaysZero(ws, k, i); }
    }
    SumAdd(cw, ws, r);
    BestIsFirstHighest(ws, r, -1, |ws|);
    EligibleTotalIsSum(ws, |ws|);
    assert ws[..|ws|] == ws;
    if p < 0 || r[p] <= 0 {
      forall i | 0 <= i < |ws|
        ensures r[i] <= 0
      {
        if ws[i] > 0 { assert Eligible(ws, -1, i); }
      }
      SumNotPositive(r);
    }
  }

  /** What one pick does to the current weights. */
  lemma CwStep(ws: Weights, k: nat)
    requires Total(ws) > 0 && Sum(Cw(ws, k)) == 0
    ensures 0 <= Pick(ws, k) && Sum(Cw(ws, k + 1)) == 0
    ensures forall i :: 0 <= i < |ws| ==>
              Cw(ws, k + 1)[i] == Cw(ws, k)[i] + ws[i] - if Pick(ws, k) == i then Total(ws) else 0
    ensures Cw(ws, k + 1)[Pick(ws, k)] >= 1 - Total(ws)
  {
    PickIsPositive(ws, k);
    var cw, p := Cw(ws, k), Pick(ws, k);
    var r := Raised(ws, cw, -1);
    SumUpdate(r, p, r[p] - Total(ws));
    forall i | 0 <= i < |ws|
      ensures Cw(ws, k + 1)[i] == cw[i] + ws[i] - if p == i then Total(ws) else 0
    {
      if ws[i] == 0 { UnusableStaysZero(ws, k, i); }
    }
  }

  lemma {:induction false} SumStaysZero(ws: Weights, k: nat)
    requires Total(ws) > 0
    ensures Sum(Cw(ws, k)) == 0
  {
    hide Sum, Step;
    if k == 0 {
      SumZeros(Cw(ws, 0));
    } else {
      SumStaysZero(ws, k - 1);
      CwStep(ws, k - 1);
    }
  }

  /** The balance kept by every pick: no current weight is a whole round behind, and each says
      how far its server is from its share of the k picks. (SumStaysZero is the third part.) */
  lemma {:induction false} Balance(ws: Weights, k: nat, i: nat)
    requires Total(ws) > 0 && i < |ws|
    ensures Cw(ws, k)[i] == k * ws[i] - Total(ws) * PicksOf(ws, i, 0, k)
    ensures Cw(ws, k)[i] >= 1 - Total(ws)
  {
    hide Sum, Step, Total, Cw, Pick;
    if k == 0 {
      CwStart(ws);
    } else {
      Balance(ws, k - 1, i);
      SumStaysZero(ws, k - 1);
      CwStep(ws, k - 1);
      BalanceArithmetic(k, ws[i], Total(ws), PicksOf(ws, i, 0, k - 1));
    }
  }

  lemma CwStart(ws: Weights)
    ensures Cw(ws, 0) == seq(|ws|, _ => 0)
  {
  }

  lemma CwNext(ws: Weights, k: nat)
    ensures Step(ws, Cw(ws, k), -1) == (Cw(ws, k + 1), Pick(ws, k))
  {
    hide Raised, Best;
  }

  lemma BalanceArithmetic(k: nat, w: int, total: int, n: int)
    requires k > 0
    ensures (k - 1) * w - total * n + w == k * w - total * n
    ensures total * (n + 1) == total * n + total
  {
  }

  /** One pick of a run, from its raised weights. */
  lemma StepFromRaised(ws: Weights, t: nat)
    requires Total(ws) > 0
    ensures var r := Raised(ws, Cw(ws, t), -1); var best := Best(ws, r, -1, |ws|);
            best == Pick(ws, t) &&
            0 <= best &&
            ws[best] > 0 &&
            Cw(ws, t + 1) == r[best := r[best] - Total(ws)]
  {
    SumStaysZero(ws, t);
    PickIsPositive(ws, t);
  }

  // ------------------------------------------------------------ fairness

  /** After total picks every server has been picked exactly weight times and all current
      weights are back at zero. */
  lemma FullRound(ws: Weights)
    requires Total(ws) > 0
    ensures forall i :: 0 <= i < |ws| ==> PicksOf(ws, i, 0, Total(ws)) == ws[i]
    ensures Cw(ws, Total(ws)) == Cw(ws, 0)
  {
    hide Cw, PicksOf, Pick, Sum, Total;
    var total := Total(ws);
    var cw := Cw(ws, total);
    SumStaysZero(ws, total);
    CwStart(ws);
    forall i | 0 <= i < |ws|
      ensures cw[i] == total * (ws[i] - PicksOf(ws, i, 0, total)) >= 0
    {
      Balance(ws, total, i);
      NotNegative(total, ws[i] - PicksOf(ws, i, 0, total));
    }
    SumOfNothing(cw);
    forall i | 0 <= i < |ws|
      ensures PicksOf(ws, i, 0, total) == ws[i]
    {
      ZeroProduct(total, ws[i] - PicksOf(ws, i, 0, total));
    }
  }

  lemma NotNegative(total: int, x: int)
    requires total > 0 && total * x >= 1 - total
    ensures x >= 0
  {
    if x < 0 {
      NotPositiveProduct(total, x + 1);
    }
  }

  lemma NotPositiveProduct(total: int, y: int)
    ensures total > 0 && y <= 0 ==> total * y <= 0 && total * y == total * (y - 1) + total
  {
  }

  lemma ZeroProduct(total: int, x: int)
    ensures total > 0 && total * x == 0 ==> x == 0
  {
  }

  lemma {:induction false} Periodic(ws: Weights, k: nat)
    requires Total(ws) > 0
    ensures Cw(ws, k + Total(ws)) == Cw(ws, k)
  {
    hide Step, Total;
    if k == 0 {
      FullRound(ws);
    } else {
      Periodic(ws, k - 1);
      assert k + Total(ws) - 1 == k - 1 + Total(ws);
    }
  }

  /** Fairness: every window of total consecutive picks, wherever it starts, picks each server
      exactly weight times. */
  lemma Fair(ws: Weights, k: nat)
    requires Total(ws) > 0
    ensures forall i :: 0 <= i < |ws| ==> PicksOf(ws, i, k, k + Total(ws)) == ws[i]
    ensures Cw(ws, k + Total(ws)) == Cw(ws, k)
  {
    hide Cw, PicksOf, Pick, Total;
    var total := Total(ws);
    Periodic(ws, k);
    forall i | 0 <= i < |ws|
      ensures PicksOf(ws, i, k, k + total) == ws[i]
    {
      Balance(ws, k, i);
      Balance(ws, k + total, i);
      PicksSplit(ws, i, 0, k, k + total);
      WindowArithmetic(k, total, ws[i], PicksOf(ws, i, 0, k), PicksOf(ws, i, k, k + total));
    }
  }

  lemma WindowArithmetic(k: int, total: int, w: int, before: int, inside: int)
    requires total > 0 && (k + total) * w - total * (before + inside) == k * w - total * before
    ensures inside == w
  {
    assert (k + total) * w == k * w + total * w;
    assert total * (before + inside) == total * before + total * inside;
    assert total * (w - inside) == 0;
    ZeroProduct(total, w - inside);
  }

  // ------------------------------------------------------------ prefixes

  /** Number of servers with weight. */
  function Taking(ws: Weights): nat
  {
    if ws == [] then 0 else Taking(ws[..|ws| - 1]) + if ws[|ws| - 1] > 0 then 1 else 0
  }

  /** If each of the servers with weight is at least -c and the others are 0, then what is left
      beside server i is at least -c for each other server. */
  lemma {:induction false} SumBeside(cw: seq<int>, ws: Weights, c: int, i: nat)
    requires |cw| == |ws| && i <= |ws| && c >= 0
    requires forall j :: 0 <= j < |ws| ==> cw[j] >= if ws[j] > 0 then -c else 0
    ensures i < |ws| && ws[i] > 0 ==> Sum(cw) >= cw[i] - c * (Taking(ws) - 1)
    ensures Sum(cw) >= -c * Taking(ws)
    decreases |ws|
  {
    if ws != [] {
      var m := |ws| - 1;
      var init: Weights := ws[..m];
      SumBeside(cw[..m], init, c, if i < m then i else m);
      assert -c * (Taking(init) + 1) == -c * Taking(init) - c;
      assert c * Taking(init) == c * (Taking(init) - 1) + c;
    }
  }

  /** In the first t picks, server i is picked at most ceil(t * w / total) times, and fewer than
      its share by less than one pick per other server. */
  lemma PrefixBounds(ws: Weights, t: nat, i: nat)
    requires Total(ws) > 0 && i < |ws| && ws[i] > 0
    ensures var picks := PicksOf(ws, i, 0, t);
            t * ws[i] - (Taking(ws) - 1) * (Total(ws) - 1) <= Total(ws) * picks <= t * ws[i] + Total(ws) - 1
  {
    hide Cw, PicksOf, Pick, Total, Taking, Sum;
    var cw := Cw(ws, t);
    SumStaysZero(ws, t);
    Balance(ws, t, i);
    forall j | 0 <= j < |ws|
      ensures cw[j] >= if ws[j] > 0 then 1 - Total(ws) else 0
    {
      Balance(ws, t, j);
      if ws[j] == 0 { UnusableStaysZero(ws, t, j); }
    }
    SumBeside(cw, ws, Total(ws) - 1, i);
  }

  lemma {:induction false} TakingCounts(ws: Weights, i: nat)
    requires i < |ws| && ws[i] > 0
    ensures Taking(ws) >= 1
    ensures forall j :: 0 <= j < |ws| && j != i && ws[j] > 0 ==> Taking(ws) >= 2
  {
    var m := |ws| - 1;
    if i < m {
      TakingCounts(ws[..m], i);
    } else {
      forall j | 0 <= j < m && ws[j] > 0
        ensures Taking(ws[..m]) >= 1
      {
        TakingCounts(ws[..m], j);
      }
    }
  }

  /** In every prefix a server has more than its share less one pick per other server, unless it
      has no other: alone, it has exactly its share. */
  lemma MoreThanShare(ws: Weights, t: nat, i: nat)
    requires Total(ws) > 0 && i < |ws| && ws[i] > 0
    ensures Total(ws) * PicksOf(ws, i, 0, t) > t * ws[i] - (Taking(ws) - 1) * Total(ws) <==> Taking(ws) >= 2
  {
    hide Cw, PicksOf, Pick, Total, Taking, Sum;
    var others := Taking(ws) - 1;
    PrefixBounds(ws, t, i);
    assert others * (Total(ws) - 1) == others * Total(ws) - others;
    TakingCounts(ws, i);
    if others == 0 {
      var cw := Cw(ws, t);
      forall j | 0 <= j < |ws| && j != i
        ensures cw[j] == 0
      {
        UnusableStaysZero(ws, t, j);
      }
      SumStaysZero(ws, t);
      SumUpdate(cw, i, 0);
      SumZeros(cw[i := 0]);
      Balance(ws, t, i);
    }
  }
}
