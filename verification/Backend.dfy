/** Server selection (internal/balancer/lb.go). */
module Backend {
  import opened Common
  import opened ServerState
  import RoundRobin

  class Member {
    const st: SrvState
    var cw: int // smooth weighted round robin

    constructor (st: SrvState)
      ensures this.st == st && cw == 0
    {
      this.st, cw := st, 0;
    }

    predicate Usable()
      reads st
    {
      st.Usable()
    }
  }

  datatype Algorithm = RoundRobinAlgo | LeastConn | Source | Uri | Random | First

  datatype HashMap = HashMap(ver: nat, slots: seq<Member>)

  ghost function States(list: seq<Member>): set<SrvState>
  {
    set s | s in list :: s.st
  }

  /** A server's weight, 0 if it is not usable. */
  function TakingWeight(s: Member): int
    reads s.st
  {
    if s.st.Usable() then s.st.weight else 0
  }

  /** The servers' weights, 0 for one that is not usable. */
  ghost function WeightsOf(list: seq<Member>): (ws: RoundRobin.Weights)
    reads States(list)
    ensures |ws| == |list|
  {
    seq(|list|, i requires 0 <= i < |list| reads States(list) => TakingWeight(list[i]))
  }

  ghost function CwOf(list: seq<Member>): (cw: seq<int>)
    reads list
    ensures |cw| == |list|
  {
    seq(|list|, i requires 0 <= i < |list| reads list => list[i].cw)
  }

  lemma ValuesAt(list: seq<Member>, i: nat)
    requires i < |list|
    ensures WeightsOf(list)[i] == TakingWeight(list[i]) && CwOf(list)[i] == list[i].cw
  {
  }

  ghost predicate Distinct(list: seq<Member>)
  {
    forall i, j :: 0 <= i < j < |list| ==> list[i] != list[j]
  }

  /** Position of a server in a list; -1 if it is null or not in it. */
  ghost function PositionOf(list: seq<Member>, s: Member?): (i: int)
    ensures -1 <= i < |list|
  {
    if list == [] then -1
    else if list[|list| - 1] == s then |list| - 1
    else PositionOf(list[..|list| - 1], s)
  }

  lemma {:induction false} PositionIsRight(list: seq<Member>, s: Member?)
    ensures var i := PositionOf(list, s);
            if i >= 0 then list[i] == s else forall j :: 0 <= j < |list| ==> list[j] != s
  {
    if list != [] { PositionIsRight(list[..|list| - 1], s); }
  }

  /** Usable and not the excluded one. */
  predicate Allowed(s: Member, exclude: Member?)
    reads s.st
  {
    s != exclude && s.Usable()
  }

  ghost predicate NoneAllowed(list: seq<Member>, exclude: Member?)
    reads States(list)
  {
    forall i :: 0 <= i < |list| ==> !Allowed(list[i], exclude)
  }

  lemma NoneAllowedStep(list: seq<Member>, k: nat, exclude: Member?)
    requires k < |list|
    ensures NoneAllowed(list[..k + 1], exclude) <==> NoneAllowed(list[..k], exclude) && !Allowed(list[k], exclude)
  {
    assert forall i :: 0 <= i < k ==> list[..k + 1][i] == list[..k][i];
    assert list[..k + 1][k] == list[k];
  }

  // ------------------------------------------------------------ least connections

  /** The k-th server in rotation order from a start. */
  function Rotated(list: seq<Member>, start: nat, k: nat): Member
    requires list != []
  {
    list[(start + k) % |list|]
  }

  /** Fewer sessions relative to the weight, (scur + 1) / weight, compared by cross products. */
  predicate Lighter(s: Member, t: Member)
    reads s.st, t.st
  {
    (s.st.scur + 1) * t.st.weight < (t.st.scur + 1) * s.st.weight
  }

  /** More sessions relative to the weight, scur / weight, compared by cross products. */
  predicate Busier(s: Member, t: Member)
    reads s.st, t.st
  {
    s.st.scur * t.st.weight > t.st.scur * s.st.weight
  }

  /** What the cross products compare. */
  lemma CrossProducts(s: Member, t: Member)
    requires s.st.weight > 0 && t.st.weight > 0
    ensures Lighter(s, t) <==>
            (s.st.scur + 1) as real / s.st.weight as real < (t.st.scur + 1) as real / t.st.weight as real
    ensures Busier(s, t) <==> s.st.scur as real / s.st.weight as real > t.st.scur as real / t.st.weight as real
  {
    Fractions(s.st.scur + 1, s.st.weight, t.st.scur + 1, t.st.weight);
    Fractions(t.st.scur, t.st.weight, s.st.scur, s.st.weight);
  }

  lemma Fractions(a: int, wa: int, b: int, wb: int)
    requires wa > 0 && wb > 0
    ensures a * wb < b * wa <==> a as real / wa as real < b as real / wb as real
  {
    var x, y := a as real / wa as real, b as real / wb as real;
    assert a as real == x * wa as real && b as real == y * wb as real;
    assert (a * wb) as real == x * (wa as real * wb as real);
    assert (b * wa) as real == y * (wa as real * wb as real);
    if x < y { assert x * (wa as real * wb as real) < y * (wa as real * wb as real); }
    if x >= y { assert x * (wa as real * wb as real) >= y * (wa as real * wb as real); }
  }

  /** Position k in rotation order is the first of the lightest allowed servers below n. */
  ghost predicate FirstLightest(list: seq<Member>, start: nat, exclude: Member?, n: nat, k: nat)
    requires list != []
    reads States(list)
  {
    k < n && Allowed(Rotated(list, start, k), exclude) &&
    forall j :: 0 <= j < n && Allowed(Rotated(list, start, j), exclude) ==>
      !Lighter(Rotated(list, start, j), Rotated(list, start, k)) &&
      (j < k ==> Lighter(Rotated(list, start, k), Rotated(list, start, j)))
  }

  lemma CrossTransitive(a: int, wa: int, b: int, wb: int, c: int, wc: int)
    requires wa > 0 && wb > 0 && wc > 0
    requires a * wb < b * wa && b * wc <= c * wb
    ensures a * wc < c * wa
  {
    calc {
      (a * wc) * wb;
      ==
      (a * wb) * wc;
      < { MulLess(a * wb, b * wa, wc); }
      (b * wa) * wc;
      ==
      (b * wc) * wa;
      <= { MulLessEq(b * wc, c * wb, wa); }
      (c * wb) * wa;
      ==
      (c * wa) * wb;
    }
    if a * wc >= c * wa { MulLessEq(c * wa, a * wc, wb); }
  }

  lemma MulLess(x: int, y: int, w: int)
    ensures x < y && w > 0 ==> x * w < y * w
  {
  }

  lemma MulLessEq(x: int, y: int, w: int)
    ensures x <= y && w >= 0 ==> x * w <= y * w
  {
  }

  /** s is the first of the lightest allowed servers in rotation order. */
  ghost predicate IsFirstLightest(list: seq<Member>, start: nat, exclude: Member?, s: Member)
    reads States(list)
  {
    list != [] && exists k :: 0 <= k < |list| && s == Rotated(list, start, k) && FirstLightest(list, start, exclude, |list|, k)
  }

  /** A server lighter than the lightest so far is lighter than all of them. */
  lemma NewLightest(list: seq<Member>, start: nat, exclude: Member?, n: nat, k: nat)
    requires list != [] && FirstLightest(list, start, exclude, n, k)
    requires Allowed(Rotated(list, start, n), exclude) && Lighter(Rotated(list, start, n), Rotated(list, start, k))
    ensures FirstLightest(list, start, exclude, n + 1, n)
  {
    var s, t := Rotated(list, start, n).st, Rotated(list, start, k).st;
    forall j | 0 <= j < n && Allowed(Rotated(list, start, j), exclude)
      ensures Lighter(Rotated(list, start, n), Rotated(list, start, j))
      ensures !Lighter(Rotated(list, start, j), Rotated(list, start, n))
    {
      var u := Rotated(list, start, j).st;
      CrossTransitive(s.scur + 1, s.weight, t.scur + 1, t.weight, u.scur + 1, u.weight);
    }
  }

  lemma OnlyLightest(list: seq<Member>, start: nat, exclude: Member?, n: nat)
    requires list != [] && Allowed(Rotated(list, start, n), exclude)
    requires forall j :: 0 <= j < n ==> !Allowed(Rotated(list, start, j), exclude)
    ensures FirstLightest(list, start, exclude, n + 1, n)
  {
  }

  lemma LightestIs(list: seq<Member>, start: nat, exclude: Member?, n: nat, k: nat)
    requires list != [] && FirstLightest(list, start, exclude, n, k)
    ensures Allowed(Rotated(list, start, k), exclude) && Rotated(list, start, k) in list
  {
  }

  lemma SameLightest(list: seq<Member>, start: nat, exclude: Member?, n: nat, k: nat)
    requires list != [] && FirstLightest(list, start, exclude, n, k)
    requires Allowed(Rotated(list, start, n), exclude) ==> !Lighter(Rotated(list, start, n), Rotated(list, start, k))
    ensures FirstLightest(list, start, exclude, n + 1, k)
  {
  }

  lemma LighterIs(s: Member, t: Member)
    ensures Lighter(s, t) <==> (s.st.scur + 1) * t.st.weight < (t.st.scur + 1) * s.st.weight
  {
  }

  /** A whole rotation visits every position. */
  lemma RotationCovers(list: seq<Member>, start: nat, i: nat) returns (k: nat)
    requires start < |list| && i < |list|
    ensures k < |list| && Rotated(list, start, k) == list[i]
  {
    k := if i >= start then i - start else i - start + |list|;
    assert (start + k) % |list| == i;
  }

  lemma NoneRotated(list: seq<Member>, start: nat, exclude: Member?)
    requires start < |list| && forall j :: 0 <= j < |list| ==> !Allowed(Rotated(list, start, j), exclude)
    ensures NoneAllowed(list, exclude)
  {
    forall i | 0 <= i < |list|
      ensures !Allowed(list[i], exclude)
    {
      var k := RotationCovers(list, start, i);
    }
  }

  lemma RotatedIn(list: seq<Member>, start: nat, k: nat)
    requires list != []
    ensures Rotated(list, start, k) in list
  {
  }

  lemma OnlyExcluded(list: seq<Member>, exclude: Member?)
    requires forall i :: 0 <= i < |list| && list[i].Usable() ==> list[i] == exclude
    ensures NoneAllowed(list, exclude)
  {
  }

  /** r is the first slot from a start that is not the excluded server's. */
  ghost predicate FirstSlot(slots: seq<Member>, start: nat, exclude: Member?, r: Member)
    requires slots != []
  {
    exists n :: 0 <= n < |slots| && r == Rotated(slots, start, n) && r != exclude &&
      forall j :: 0 <= j < n ==> Rotated(slots, start, j) == exclude
  }

  lemma AllRotated(list: seq<Member>, start: nat, exclude: Member?)
    requires start < |list| && forall j :: 0 <= j < |list| ==> Rotated(list, start, j) == exclude
    ensures forall s :: s in list ==> s == exclude
  {
    forall i | 0 <= i < |list|
      ensures list[i] == exclude
    {
      var k := RotationCovers(list, start, i);
    }
  }

  // ------------------------------------------------------------ random draws

  /** A draw r falls on a server: each allowed one has as many draws as weight, in order. */
  ghost predicate FallsOn(list: seq<Member>, exclude: Member?, r: int, s: Member)
    reads States(list)
  {
    var ws, ex, i := WeightsOf(list), PositionOf(list, exclude), PositionOf(list, s);
    i >= 0 && RoundRobin.EligibleTotal(ws, ex, i) <= r < RoundRobin.EligibleTotal(ws, ex, i + 1)
  }

  ghost function AllowedTotal(list: seq<Member>, exclude: Member?): nat
    reads States(list)
  {
    RoundRobin.EligibleTotal(WeightsOf(list), PositionOf(list, exclude), |list|)
  }

  /** Of the servers two draws fall on, the later one, unless it is busier. */
  ghost predicate LessBusyOfTwo(list: seq<Member>, exclude: Member?, d1: nat, d2: nat, s: Member)
    reads States(list)
  {
    var total := AllowedTotal(list, exclude);
    total > 0 &&
    exists a, c ::
      && a in list && c in list
      && FallsOn(list, exclude, d1 % total, a) && FallsOn(list, exclude, d2 % total, c)
      && s == if Busier(c, a) then a else c
  }

  // ------------------------------------------------------------ hash map

  /** The usable servers of a list, in order. */
  ghost function UsableOf(list: seq<Member>): seq<Member>
    reads States(list)
  {
    if list == [] then []
    else
      var n := |list| - 1;
      assert list == list[..n] + [list[n]];
      UsableOf(list[..n]) + if list[n].Usable() then [list[n]] else []
  }

  /** Their weights. */
  ghost function UsableWeights(list: seq<Member>): (ws: RoundRobin.Weights)
    reads States(list)
    ensures |ws| == |UsableOf(list)|
  {
    if list == [] then []
    else
      var n := |list| - 1;
      assert list == list[..n] + [list[n]];
      UsableWeights(list[..n]) + if list[n].Usable() then [list[n].st.weight] else []
  }

  lemma {:induction false} UsableOfIs(list: seq<Member>)
    ensures forall i :: 0 <= i < |UsableOf(list)| ==> UsableOf(list)[i] in list && UsableOf(list)[i].Usable()
    ensures forall i :: 0 <= i < |UsableOf(list)| ==> UsableWeights(list)[i] == UsableOf(list)[i].st.weight > 0
    ensures forall i :: 0 <= i < |list| && list[i].Usable() ==> list[i] in UsableOf(list)
  {
    if list != [] {
      UsableOfIs(list[..|list| - 1]);
    }
  }

  /** Slot t of the hash map: pick t of a fresh smooth weighted round robin over the usable
      servers. */
  ghost function SlotOf(us: seq<Member>, ws: RoundRobin.Weights, t: nat): Member
    requires |ws| == |us| && us != []
  {
    var p := RoundRobin.Pick(ws, t);
    us[if p < 0 then 0 else p]
  }

  /** slots holds a whole round over the servers us. */
  ghost predicate WholeRound(us: seq<Member>, ws: RoundRobin.Weights, slots: seq<Member>)
    requires |ws| == |us|
  {
    |slots| == RoundRobin.Total(ws) && forall t :: 0 <= t < |slots| ==> us != [] && slots[t] == SlotOf(us, ws, t)
  }

  /** slots is the hash map of the servers of a list: a whole round over the usable ones. */
  ghost predicate SlotsFor(list: seq<Member>, slots: seq<Member>)
    reads States(list)
  {
    WholeRound(UsableOf(list), UsableWeights(list), slots)
  }

  /** How often a server stands in a list. */
  ghost function CountOf(list: seq<Member?>, s: Member): nat
  {
    if list == [] then 0 else CountOf(list[..|list| - 1], s) + if list[|list| - 1] == s then 1 else 0
  }

  lemma {:induction false} DistinctUsable(list: seq<Member>)
    requires Distinct(list)
    ensures Distinct(UsableOf(list))
  {
    if list != [] {
      var n := |list| - 1;
      DistinctUsable(list[..n]);
      UsableOfIs(list[..n]);
      assert list[n] !in list[..n];
    }
  }

  lemma {:induction false} CountIsPicks(us: seq<Member>, ws: RoundRobin.Weights, slots: seq<Member>, i: nat, t: nat)
    requires |ws| == |us| && Distinct(us) && i < |us| && t <= |slots| && RoundRobin.Total(ws) > 0
    requires WholeRound(us, ws, slots)
    ensures CountOf(slots[..t], us[i]) == RoundRobin.PicksOf(ws, i, 0, t)
  {
    if t > 0 {
      CountIsPicks(us, ws, slots, i, t - 1);
      assert slots[..t][..t - 1] == slots[..t - 1];
      RoundRobin.SumStaysZero(ws, t - 1);
      RoundRobin.PickIsPositive(ws, t - 1);
      assert slots[t - 1] == SlotOf(us, ws, t - 1);
    }
  }

  // ------------------------------------------------------------ round robin over many requests

  /** Pick t is that of the weighted rounds from zero; null if no server takes any. */
  ghost predicate PickedInTurn(list: seq<Member>, ws: RoundRobin.Weights, picks: seq<Member?>)
  {
    |ws| == |list| &&
    forall t :: 0 <= t < |picks| ==> picks[t] == if RoundRobin.Pick(ws, t) < 0 then null else list[RoundRobin.Pick(ws, t)]
  }

  /** Of any Total(ws) consecutive picks each server gets exactly its weight. */
  ghost predicate InTurnIsFair(list: seq<Member>, ws: RoundRobin.Weights, picks: seq<Member?>)
    requires |ws| == |list|
  {
    forall i, k :: 0 <= i < |list| && 0 <= k ==> FairFrom(list, ws, picks, i, k)
  }

  ghost predicate FairFrom(list: seq<Member>, ws: RoundRobin.Weights, picks: seq<Member?>, i: nat, k: nat)
    requires i < |list| == |ws|
  {
    var total := RoundRobin.Total(ws);
    0 < total <= |picks| - k ==> CountOf(picks[k..k + total], list[i]) == ws[i]
  }

  lemma NothingExcluded(list: seq<Member>)
    ensures PositionOf(list, null) == -1
  {
    PositionIsRight(list, null);
  }

  lemma NothingPicked(list: seq<Member>, ws: RoundRobin.Weights)
    requires |ws| == |list|
    ensures PickedInTurn(list, ws, [])
  {
  }

  lemma PickedNext(list: seq<Member>, ws: RoundRobin.Weights, picks: seq<Member?>, s: Member?)
    requires PickedInTurn(list, ws, picks)
    requires var p := RoundRobin.Pick(ws, |picks|); s == if p < 0 then null else list[p]
    ensures PickedInTurn(list, ws, picks + [s])
  {
    hide RoundRobin.Pick;
  }

  lemma {:induction false} CountInTurn(list: seq<Member>, ws: RoundRobin.Weights, picks: seq<Member?>, i: nat, lo: nat, hi: nat)
    requires Distinct(list) && PickedInTurn(list, ws, picks) && i < |list| && lo <= hi <= |picks|
    ensures CountOf(picks[lo..hi], list[i]) == RoundRobin.PicksOf(ws, i, lo, hi)
    decreases hi
  {
    hide RoundRobin.Pick;
    if lo < hi {
      CountInTurn(list, ws, picks, i, lo, hi - 1);
      assert picks[lo..hi][..hi - 1 - lo] == picks[lo..hi - 1] && picks[lo..hi][hi - 1 - lo] == picks[hi - 1];
    }
  }

  lemma TurnsAreFair(list: seq<Member>, ws: RoundRobin.Weights, picks: seq<Member?>)
    requires Distinct(list) && PickedInTurn(list, ws, picks)
    ensures InTurnIsFair(list, ws, picks)
  {
    hide RoundRobin.Total, PickedInTurn, Distinct, CountOf, RoundRobin.PicksOf, RoundRobin.Cw;
    var total := RoundRobin.Total(ws);
    PickedSize(list, ws, picks);
    forall i, k | 0 <= i < |list| && 0 <= k
      ensures FairFrom(list, ws, picks, i, k)
    {
      if 0 < total <= |picks| - k {
        RoundRobin.Fair(ws, k);
        CountInTurn(list, ws, picks, i, k, k + total);
      }
    }
  }

  lemma PickedSize(list: seq<Member>, ws: RoundRobin.Weights, picks: seq<Member?>)
    ensures PickedInTurn(list, ws, picks) ==> |ws| == |list|
  {
  }

  /** count of the first t slots are of a server with weight w of a total, among n servers: at
      most ceil(t * w / total), and, unless there is no other server, more than its share
      t * w / total less one slot per other server. */
  predicate InProportion(count: int, t: int, w: int, total: int, n: int)
  {
    t * w - (n - 1) * (total - 1) <= total * count <= t * w + total - 1 &&
    (total * count > t * w - (n - 1) * total <==> n >= 2)
  }

  /** A whole round over distinct servers with weight holds each weight times, and in proportion
      in every prefix. */
  lemma WholeRoundIsFair(us: seq<Member>, ws: RoundRobin.Weights, slots: seq<Member>, u: nat, t: nat)
    requires |ws| == |us| && Distinct(us) && u < |us| && t <= |slots| && WholeRound(us, ws, slots)
    requires forall i :: 0 <= i < |ws| ==> ws[i] > 0
    ensures CountOf(slots, us[u]) == ws[u]
    ensures InProportion(CountOf(slots[..t], us[u]), t, ws[u], |slots|, |us|)
  {
    hide CountOf, Distinct, RoundRobin.PicksOf, RoundRobin.Taking, RoundRobin.Cw, RoundRobin.Pick;
    RoundRobin.SumAtLeast(ws, u);
    CountIsPicks(us, ws, slots, u, |slots|);
    assert slots[..|slots|] == slots;
    CountIsPicks(us, ws, slots, u, t);
    RoundRobin.FullRound(ws);
    RoundRobin.PrefixBounds(ws, t, u);
    RoundRobin.MoreThanShare(ws, t, u);
    AllTaking(ws);
  }

  /** The hash map of a backend: every usable server stands in it exactly weight times, and
      every prefix holds each of them in proportion. */
  lemma HashMapIsFair(list: seq<Member>, slots: seq<Member>, i: nat, t: nat)
    requires Distinct(list) && SlotsFor(list, slots) && i < |list| && t <= |slots|
    ensures CountOf(slots, list[i]) == TakingWeight(list[i])
    ensures list[i].Usable() ==> InProportion(CountOf(slots[..t], list[i]), t, list[i].st.weight, |slots|, |UsableOf(list)|)
  {
    var us, ws := UsableOf(list), UsableWeights(list);
    UsableOfIs(list);
    DistinctUsable(list);
    hide UsableOf, UsableWeights, CountOf, Distinct, WholeRound, InProportion;
    if list[i].Usable() {
      var u :| 0 <= u < |us| && us[u] == list[i];
      WholeRoundIsFair(us, ws, slots, u, t);
      assert ws[u] == list[i].st.weight;
      WholeRoundLength(us, ws, slots);
    } else {
      assert list[i] !in us;
      NotInRound(us, ws, slots, list[i]);
    }
  }

  lemma WholeRoundLength(us: seq<Member>, ws: RoundRobin.Weights, slots: seq<Member>)
    requires |ws| == |us| && WholeRound(us, ws, slots)
    ensures |slots| == RoundRobin.Total(ws)
  {
  }

  lemma NotInRound(us: seq<Member>, ws: RoundRobin.Weights, slots: seq<Member>, s: Member)
    requires |ws| == |us| && WholeRound(us, ws, slots) && s !in us
    ensures CountOf(slots, s) == 0
  {
    forall k | 0 <= k < |slots|
      ensures slots[k] != s
    {
      assert slots[k] == SlotOf(us, ws, k) && slots[k] in us;
    }
    CountNone(slots, s);
  }

  lemma {:induction false} AllTaking(ws: RoundRobin.Weights)
    requires forall i :: 0 <= i < |ws| ==> ws[i] > 0
    ensures RoundRobin.Taking(ws) == |ws|
  {
    if ws != [] { AllTaking(ws[..|ws| - 1]); }
  }

  lemma {:induction false} CountNone(list: seq<Member>, s: Member)
    requires forall k :: 0 <= k < |list| ==> list[k] != s
    ensures CountOf(list, s) == 0
  {
    if list != [] { CountNone(list[..|list| - 1], s); }
  }

  /** Every usable server has a slot, and only they do. */
  lemma SlotsCover(list: seq<Member>, slots: seq<Member>)
    requires Distinct(list) && SlotsFor(list, slots)
    ensures forall k :: 0 <= k < |slots| ==> slots[k] in list && slots[k].Usable()
    ensures forall i :: 0 <= i < |list| && list[i].Usable() ==> list[i] in slots
  {
    var us := UsableOf(list);
    UsableOfIs(list);
    forall k | 0 <= k < |slots|
      ensures slots[k] in list && slots[k].Usable()
    {
      assert slots[k] == SlotOf(us, UsableWeights(list), k) && slots[k] in us;
    }
    forall i | 0 <= i < |list| && list[i].Usable()
      ensures list[i] in slots
    {
      HashMapIsFair(list, slots, i, 0);
      if list[i] !in slots { CountNone(slots, list[i]); }
    }
  }

  // ------------------------------------------------------------ the backend

  class Backend {
    const actives: seq<Member>
    const backups: seq<Member>
    const st: BeState
    const algo: Algorithm
    var rr: nat
    var hmap: Option<HashMap>

    ghost predicate Valid()
    {
      Distinct(actives) && forall s :: s in actives ==> s !in backups
    }

    constructor (actives: seq<Member>, backups: seq<Member>, st: BeState, algo: Algorithm)
      requires Distinct(actives) && forall s :: s in actives ==> s !in backups
      ensures Valid() && this.actives == actives && this.backups == backups && this.st == st && this.algo == algo
      ensures hmap == None && rr == 0
    {
      this.actives, this.backups, this.st, this.algo := actives, backups, st, algo;
      rr, hmap := 0, None;
    }

    /** The first usable backup in declaration order. */
    method FirstBackup(exclude: Member?) returns (r: Member?)
      ensures r == null ==> NoneAllowed(backups, exclude)
      ensures r != null ==> exists i :: 0 <= i < |backups| && backups[i] == r && Allowed(r, exclude) && NoneAllowed(backups[..i], exclude)
    {
      for i := 0 to |backups|
        invariant NoneAllowed(backups[..i], exclude)
      {
        if backups[i] != exclude && backups[i].st.Usable() {
          return backups[i];
        }
      }
      return null;
    }

    /** Balance "first": the first usable active server. */
    method PickFirst(exclude: Member?) returns (r: Member?)
      ensures r == null ==> NoneAllowed(actives, exclude)
      ensures r != null ==> exists i :: 0 <= i < |actives| && actives[i] == r && Allowed(r, exclude) && NoneAllowed(actives[..i], exclude)
    {
      for i := 0 to |actives|
        invariant NoneAllowed(actives[..i], exclude)
      {
        if actives[i] != exclude && actives[i].st.Usable() {
          return actives[i];
        }
      }
      return null;
    }

    /** Smooth weighted round robin, in one pass over the servers. */
    method PickRR(exclude: Member?) returns (best: Member?)
      requires Valid()
      modifies actives
      ensures var step := RoundRobin.Step(WeightsOf(actives), old(CwOf(actives)), PositionOf(actives, exclude));
              CwOf(actives) == step.0 && best == if step.1 < 0 then null else actives[step.1]
      ensures WeightsOf(actives) == old(WeightsOf(actives))
      ensures best == null <==> NoneAllowed(actives, exclude)
      ensures best != null ==> best in actives && Allowed(best, exclude)
    {
      hide *;
      ghost var ws, cw, ex := WeightsOf(actives), CwOf(actives), PositionOf(actives, exclude);
      ghost var raised := RoundRobin.Raised(ws, cw, ex);
      RoundRobin.ScanStart(ws, cw, ex);
      RoundRobin.MixedEnds(raised, cw);
      best := null;
      var total, position := 0, 0;
      ghost var pick := -1;
      for i := 0 to |actives|
        invariant CwOf(actives) == RoundRobin.Mixed(raised, cw, i) && WeightsOf(actives) == ws
        invariant total == RoundRobin.EligibleTotal(ws, ex, i)
        invariant pick == RoundRobin.Best(ws, raised, ex, i)
        invariant best == (if pick < 0 then null else actives[pick]) && (pick >= 0 ==> position == pick)
      {
        RoundRobin.ScanStep(ws, cw, ex, i);
        RoundRobin.MixedStep(raised, cw, i);
        var eligible, w := Raise(i, exclude);
        if !eligible {
          continue;
        }
        total := total + w;
        ValuesAt(actives, i);
        RoundRobin.MixedAt(raised, cw, i + 1, i);
        if pick >= 0 {
          ValuesAt(actives, pick);
          RoundRobin.MixedAt(raised, cw, i + 1, pick);
        }
        if best == null || actives[i].cw > best.cw {
          best, position := actives[i], i;
          pick := i;
        }
      }
      RoundRobin.StepOf(ws, cw, ex);
      if best != null {
        ValuesAt(actives, pick);
        SetCw(position, best.cw - total);
      }
      Outcome(exclude, raised, pick);
    }

    /** Raises one server's current weight, or resets that of an unusable one. */
    method Raise(i: nat, exclude: Member?) returns (eligible: bool, w: int)
      requires Valid() && i < |actives|
      modifies actives[i]
      ensures var ex := PositionOf(actives, exclude);
              w == WeightsOf(actives)[i] && (eligible <==> i != ex && w > 0) && w >= 0 &&
              CwOf(actives) == var cw := old(CwOf(actives)); cw[i := if i == ex then cw[i] else if w == 0 then 0 else cw[i] + w]
      ensures WeightsOf(actives) == old(WeightsOf(actives))
    {
      hide *;
      PositionIs(i, exclude);
      ValuesAt(actives, i);
      w := TakingWeight(actives[i]);
      ghost var cw := CwOf(actives);
      if actives[i] == exclude || w == 0 {
        if actives[i] != exclude {
          SetCw(i, 0);
        }
        assert cw == cw[i := cw[i]];
        return false, w;
      }
      SetCw(i, actives[i].cw + w);
      eligible := true;
    }

    /** Writes one server's current weight. */
    method SetCw(i: nat, x: int)
      requires Valid() && i < |actives|
      modifies actives[i]
      ensures CwOf(actives) == old(CwOf(actives))[i := x]
      ensures WeightsOf(actives) == old(WeightsOf(actives))
    {
      Others(i);
      actives[i].cw := x;
    }

    /** Eligible positions are allowed servers. */
    lemma Outcome(exclude: Member?, raised: seq<int>, pick: int)
      requires Valid() && |raised| == |actives|
      requires pick == RoundRobin.Best(WeightsOf(actives), raised, PositionOf(actives, exclude), |actives|)
      ensures pick < 0 <==> NoneAllowed(actives, exclude)
      ensures pick >= 0 ==> Allowed(actives[pick], exclude)
    {
      var ws, ex := WeightsOf(actives), PositionOf(actives, exclude);
      RoundRobin.BestIsFirstHighest(ws, raised, ex, |actives|);
      forall i | 0 <= i < |actives|
        ensures RoundRobin.Eligible(ws, ex, i) <==> Allowed(actives[i], exclude)
      {
        PositionIs(i, exclude);
      }
    }

    /** Fewest sessions relative to the weight; ties rotate. */
    method PickLeastConn(exclude: Member?) returns (best: Member?)
      modifies this`rr
      ensures rr == if actives == [] then old(rr) else (old(rr) + 1) % 0x1_0000_0000_0000_0000
      ensures best == null ==> NoneAllowed(actives, exclude)
      ensures best != null ==> best in actives && Allowed(best, exclude)
      ensures best != null ==> actives != [] && IsFirstLightest(actives, rr % |actives|, exclude, best)
    {
      hide FirstLightest, Lighter, Rotated;
      var n := |actives|;
      best := null;
      if n == 0 {
        return;
      }
      rr := (rr + 1) % 0x1_0000_0000_0000_0000;
      var start := rr % n;
      var bestCur, bestW := 0, 0;
      ghost var k := 0;
      for i := 0 to n
        modifies {}
        invariant best == null ==> forall j :: 0 <= j < i ==> !Allowed(Rotated(actives, start, j), exclude)
        invariant best != null ==> k < n && best == Rotated(actives, start, k) && FirstLightest(actives, start, exclude, i, k)
        invariant best != null ==> bestCur == best.st.scur && bestW == best.st.weight
      {
        var s := Rotated(actives, start, i);
        if s == exclude || !s.st.Usable() {
          if best != null { SameLightest(actives, start, exclude, i, k); }
          continue;
        }
        var cur, w := s.st.scur, s.st.weight;
        if best == null || (cur + 1) * bestW < (bestCur + 1) * w {
          if best == null { OnlyLightest(actives, start, exclude, i); } else { LighterIs(s, best); NewLightest(actives, start, exclude, i, k); }
          best, bestCur, bestW := s, cur, w;
          k := i;
        } else {
          LighterIs(s, best);
          SameLightest(actives, start, exclude, i, k);
        }
      }
      if best == null { NoneRotated(actives, start, exclude); } else { LightestIs(actives, start, exclude, n, k); }
    }

    /** The hash map of the current states, rebuilt when the version moved on. */
    method Slots() returns (slots: seq<Member>)
      requires Valid()
      requires hmap.Some? && hmap.value.ver == st.version ==> SlotsFor(actives, hmap.value.slots)
      modifies this`hmap
      ensures SlotsFor(actives, slots)
      ensures hmap == Some(HashMap(st.version, slots))
    {
      var ver := st.version;
      if hmap.Some? && hmap.value.ver == ver {
        return hmap.value.slots;
      }
      var ents, ws, total := Entries();
      label Listed:
      assert forall s :: s in actives ==> allocated(s.st);
      slots := BuildSlots(ents, ws, total);
      hmap := Some(HashMap(ver, slots));
      assert forall s :: s in actives ==> unchanged@Listed(s.st);
      assert unchanged@Listed(States(actives));
      assert ents == UsableOf(actives);
    }

    /** The usable servers, their weights and the sum of these. */
    method Entries() returns (ents: seq<Member>, ws: RoundRobin.Weights, total: int)
      ensures ents == UsableOf(actives) && ws == UsableWeights(actives) && total == RoundRobin.Total(ws)
      ensures forall i :: 0 <= i < |ws| ==> ws[i] > 0
    {
      ents, ws, total := [], [], 0;
      for i := 0 to |actives|
        invariant ents == UsableOf(actives[..i]) && ws == UsableWeights(actives[..i])
        invariant total == RoundRobin.Sum(ws)
      {
        assert actives[..i + 1][..i] == actives[..i];
        var s := actives[i];
        if s.st.Usable() {
          var w := s.st.weight;
          assert (ws + [w])[..|ws|] == ws;
          ents, ws, total := ents + [s], ws + [w], total + w;
        }
      }
      assert actives[..|actives|] == actives;
      UsableOfIs(actives);
    }

    /** One smooth weighted round from zero over the usable servers. */
    method BuildSlots(ents: seq<Member>, ws: RoundRobin.Weights, total: int) returns (slots: seq<Member>)
      requires |ents| == |ws| && total == RoundRobin.Total(ws)
      requires forall i :: 0 <= i < |ws| ==> ws[i] > 0
      ensures WholeRound(ents, ws, slots)
    {
      hide *;
      TotalNotNegative(ws);
      var cur := new int[|ents|](_ => 0);
      slots := [];
      RoundRobin.CwStart(ws);
      for t := 0 to total
        invariant cur[..] == RoundRobin.Cw(ws, t)
        invariant |slots| == t && forall k :: 0 <= k < t ==> ents != [] && slots[k] == SlotOf(ents, ws, k)
      {
        RoundRobin.StepFromRaised(ws, t);
        var best := RaiseAll(ws, cur);
        ghost var raised := cur[..];
        cur[best] := cur[best] - total;
        assert cur[..] == raised[best := raised[best] - total];
        SlotIs(ents, ws, t);
        slots := slots + [ents[best]];
      }
      WholeRoundIs(ents, ws, slots);
    }

    static lemma TotalNotNegative(ws: RoundRobin.Weights)
      ensures RoundRobin.Total(ws) >= 0
    {
      RoundRobin.SumOfNothing(ws);
    }

    static lemma SlotIs(us: seq<Member>, ws: RoundRobin.Weights, t: nat)
      requires |ws| == |us| && RoundRobin.Pick(ws, t) >= 0
      ensures us != [] && SlotOf(us, ws, t) == us[RoundRobin.Pick(ws, t)]
    {
    }

    static lemma WholeRoundIs(us: seq<Member>, ws: RoundRobin.Weights, slots: seq<Member>)
      requires |ws| == |us| && |slots| == RoundRobin.Total(ws)
      requires forall t :: 0 <= t < |slots| ==> us != [] && slots[t] == SlotOf(us, ws, t)
      ensures WholeRound(us, ws, slots)
    {
    }

    /** Adds every weight to its current weight; the first highest one wins. */
    method RaiseAll(ws: RoundRobin.Weights, cur: array<int>) returns (best: int)
      requires cur.Length == |ws| && forall i :: 0 <= i < |ws| ==> ws[i] > 0
      modifies cur
      ensures cur[..] == RoundRobin.Raised(ws, old(cur[..]), -1)
      ensures best == RoundRobin.Best(ws, cur[..], -1, |ws|)
    {
      hide *;
      ghost var cw := cur[..];
      ghost var raised := RoundRobin.Raised(ws, cw, -1);
      RoundRobin.ScanStart(ws, cw, -1);
      best := -1;
      for i := 0 to |ws|
        invariant forall j :: 0 <= j < |ws| ==> cur[j] == if j < i then raised[j] else cw[j]
        invariant best == RoundRobin.Best(ws, raised, -1, i)
      {
        RoundRobin.ScanStep(ws, cw, -1, i);
        cur[i] := cur[i] + ws[i];
        if best < 0 || cur[i] > cur[best] {
          best := i;
        }
      }
      assert cur[..] == raised;
    }

    /** The first allowed server in the slots, from the hash on. */
    method PickHash(h: nat, exclude: Member?) returns (r: Member?)
      requires Valid()
      requires hmap.Some? && hmap.value.ver == st.version ==> SlotsFor(actives, hmap.value.slots)
      modifies this`hmap
      ensures hmap.Some? && hmap.value.ver == st.version && SlotsFor(actives, hmap.value.slots)
      ensures r == null ==> NoneAllowed(actives, exclude)
      ensures r != null ==> r in actives && Allowed(r, exclude)
      ensures r != null ==> hmap.value.slots != [] && FirstSlot(hmap.value.slots, h % |hmap.value.slots|, exclude, r)
    {
      hide SlotsFor, Rotated, Valid, NoneAllowed;
      var slots := Slots();
      DistinctActives();
      SlotsCover(actives, slots);
      if |slots| == 0 {
        OnlyExcluded(actives, exclude);
        return null;
      }
      var i := h % |slots|;
      label Chosen:
      assert SlotsFor(actives, slots) && forall s :: s in actives ==> allocated(s.st);
      r := null;
      for n := 0 to |slots|
        modifies {}
        invariant r == null
        invariant forall j :: 0 <= j < n ==> Rotated(slots, i, j) == exclude
      {
        var s := Rotated(slots, i, n);
        RotatedIn(slots, i, n);
        if s != exclude && s.st.Usable() {
          r := s;
          break;
        }
      }
      assert forall s :: s in actives ==> unchanged@Chosen(s.st);
      assert unchanged@Chosen(States(actives));
      if r != null {
        return;
      }
      AllRotated(slots, i, exclude);
      OnlyExcluded(actives, exclude);
      return null;
    }

    /** The server a draw r of the total weight falls on. */
    method Draw(exclude: Member?, r: nat) returns (s: Member)
      requires Valid() && r < AllowedTotal(actives, exclude)
      ensures s in actives && Allowed(s, exclude) && FallsOn(actives, exclude, r, s)
    {
      hide RoundRobin.EligibleTotal, RoundRobin.Best, RoundRobin.Raised, PositionOf, Valid, WeightsOf;
      ghost var ws, ex := WeightsOf(actives), PositionOf(actives, exclude);
      var rest: int := r;
      RoundRobin.ScanStart(ws, ws, ex);
      for k := 0 to |actives|
        invariant WeightsOf(actives) == ws
        invariant rest == r - RoundRobin.EligibleTotal(ws, ex, k) >= 0
      {
        ValuesAt(actives, k);
        PositionIs(k, exclude);
        RoundRobin.ScanStep(ws, ws, ex, k);
        if actives[k] == exclude || !actives[k].st.Usable() {
          continue;
        }
        rest := rest - actives[k].st.weight;
        if rest < 0 {
          PositionIs(k, actives[k]);
          return actives[k];
        }
      }
      assert false;
    }

    lemma NoneYet(exclude: Member?)
      ensures NoneAllowed(actives[..0], exclude)
    {
    }

    /** The weight the draws are taken from. */
    method Weigh(exclude: Member?) returns (total: nat)
      requires Valid()
      ensures total == AllowedTotal(actives, exclude)
      ensures total == 0 <==> NoneAllowed(actives, exclude)
    {
      ghost var ws, ex := WeightsOf(actives), PositionOf(actives, exclude);
      hide RoundRobin.EligibleTotal, RoundRobin.Best, RoundRobin.Raised, PositionOf, Valid, WeightsOf, NoneAllowed;
      NoneYet(exclude);
      total := 0;
      RoundRobin.ScanStart(ws, ws, ex);
      for k := 0 to |actives|
        invariant WeightsOf(actives) == ws && total == RoundRobin.EligibleTotal(ws, ex, k)
        invariant total == 0 <==> NoneAllowed(actives[..k], exclude)
      {
        ValuesAt(actives, k);
        PositionIs(k, exclude);
        RoundRobin.ScanStep(ws, ws, ex, k);
        NoneAllowedStep(actives, k, exclude);
        if actives[k] != exclude && actives[k].st.Usable() {
          total := total + actives[k].st.weight;
        }
      }
      assert actives[..|actives|] == actives;
    }

    /** Two draws by weight; the later one stays unless the earlier serves fewer sessions
        relative to its weight. d1 and d2 are the random numbers, taken within the total. */
    method PickRandom(exclude: Member?, d1: nat, d2: nat) returns (s: Member?)
      requires Valid()
      ensures s == null <==> NoneAllowed(actives, exclude)
      ensures s != null ==> s in actives && Allowed(s, exclude) && LessBusyOfTwo(actives, exclude, d1, d2, s)
    {
      hide Valid, NoneAllowed, FallsOn, AllowedTotal, Allowed;
      var total := Weigh(exclude);
      if total == 0 {
        return null;
      }
      label Weighed:
      assert forall x :: x in actives ==> allocated(x.st);
      var a := Draw(exclude, d1 % total);
      assert forall x :: x in actives ==> unchanged@Weighed(x.st);
      assert unchanged@Weighed(States(actives));
      var c := Draw(exclude, d2 % total);
      if c.st.scur * a.st.weight > a.st.scur * c.st.weight {
        return a;
      }
      return c;
    }

    /** s is the server the algorithm chooses among the allowed active ones; cw are the current
        weights before. */
    ghost predicate ByAlgorithm(h: nat, d1: nat, d2: nat, exclude: Member?, cw: seq<int>, s: Member)
      requires |cw| == |actives|
      reads this, actives, States(actives), st
    {
      match algo
      case LeastConn => IsFirstLightest(actives, if actives == [] then 0 else rr % |actives|, exclude, s)
      case Source => OnMap(h, exclude, s)
      case Uri => OnMap(h, exclude, s)
      case Random => LessBusyOfTwo(actives, exclude, d1, d2, s)
      case First => exists i :: 0 <= i < |actives| && actives[i] == s && NoneAllowed(actives[..i], exclude)
      case RoundRobinAlgo =>
        var p := RoundRobin.Step(WeightsOf(actives), cw, PositionOf(actives, exclude)).1;
        p >= 0 && s == actives[p]
    }

    /** The cached map is that of the current states, and s is its first allowed server from the
        hash on. */
    ghost predicate OnMap(h: nat, exclude: Member?, s: Member)
      reads this, States(actives), st
    {
      hmap.Some? && hmap.value.ver == st.version && SlotsFor(actives, hmap.value.slots) &&
      hmap.value.slots != [] && FirstSlot(hmap.value.slots, h % |hmap.value.slots|, exclude, s)
    }

    /** The current weights after a choice. */
    ghost function Moved(exclude: Member?, cw: seq<int>): (r: seq<int>)
      requires |cw| == |actives|
      reads States(actives)
      ensures |r| == |actives|
    {
      if algo.RoundRobinAlgo? then RoundRobin.Step(WeightsOf(actives), cw, PositionOf(actives, exclude)).0 else cw
    }

    /** The choice among the active servers. */
    method Choose(h: nat, d1: nat, d2: nat, exclude: Member?) returns (s: Member?)
      requires Valid()
      requires hmap.Some? && hmap.value.ver == st.version ==> SlotsFor(actives, hmap.value.slots)
      modifies actives, this`rr, this`hmap
      ensures s == null <==> NoneAllowed(actives, exclude)
      ensures s != null ==> s in actives && Allowed(s, exclude) && ByAlgorithm(h, d1, d2, exclude, old(CwOf(actives)), s)
      ensures WeightsOf(actives) == old(WeightsOf(actives)) && CwOf(actives) == Moved(exclude, old(CwOf(actives)))
      ensures rr == if algo.LeastConn? && actives != [] then (old(rr) + 1) % 0x1_0000_0000_0000_0000 else old(rr)
      ensures !algo.Source? && !algo.Uri? ==> hmap == old(hmap)
    {
      hide SlotsFor, WeightsOf, CwOf, RoundRobin.Step, PositionOf, IsFirstLightest, FirstSlot, LessBusyOfTwo, Allowed;
      label Start:
      assert forall x :: x in actives ==> allocated(x.st);
      match algo {
        case LeastConn => s := PickLeastConn(exclude);
        case Source => s := PickHash(h, exclude);
        case Uri => s := PickHash(h, exclude);
        case Random => s := PickRandom(exclude, d1, d2);
        case First => s := PickFirst(exclude);
        case RoundRobinAlgo => s := PickRR(exclude);
      }
      assert forall x :: x in actives ==> unchanged@Start(x.st);
      assert unchanged@Start(States(actives));
      if s != null {
        AllowedOne(s, exclude);
      }
    }

    lemma AllowedOne(s: Member, exclude: Member?)
      ensures s in actives && Allowed(s, exclude) ==> !NoneAllowed(actives, exclude)
    {
    }

    /** Selects a server for a new session. h is the hash of the client or path, d1 and d2 are
        random numbers. */
    method Pick(h: nat, d1: nat, d2: nat, exclude: Member?) returns (s: Member?)
      requires Valid()
      requires exclude == null || exclude in actives || exclude in backups
      requires hmap.Some? && hmap.value.ver == st.version ==> SlotsFor(actives, hmap.value.slots)
      modifies actives, this`rr, this`hmap
      ensures s == null <==> NoneAllowed(actives + backups, null)
      ensures s != null ==> s in actives + backups && s.Usable()
      ensures !NoneAllowed(actives, exclude) ==>
                s != null && s in actives && Allowed(s, exclude) && ByAlgorithm(h, d1, d2, exclude, old(CwOf(actives)), s)
      ensures s in backups && s != exclude ==> NoneAllowed(actives, exclude)
      ensures s != null && s in backups && s != exclude ==>
                exists i :: 0 <= i < |backups| && backups[i] == s && NoneAllowed(backups[..i], exclude)
      ensures s != null && s == exclude ==> NoneAllowed(actives + backups, exclude)
      ensures WeightsOf(actives) == old(WeightsOf(actives)) && CwOf(actives) == Moved(exclude, old(CwOf(actives)))
      ensures rr == if algo.LeastConn? && actives != [] then (old(rr) + 1) % 0x1_0000_0000_0000_0000 else old(rr)
      ensures !algo.Source? && !algo.Uri? ==> hmap == old(hmap)
    {
      hide SlotsFor, WeightsOf, CwOf, RoundRobin.Step, PositionOf, IsFirstLightest, FirstSlot, LessBusyOfTwo;
      s := Choose(h, d1, d2, exclude);
      label Chosen:
      assert forall x :: x in actives ==> allocated(x.st);
      if s == null {
        s := FirstBackup(exclude);
        assert forall x :: x in actives ==> unchanged@Chosen(x.st);
        assert unchanged@Chosen(States(actives));
        assert NoneAllowed(actives, exclude);
      }
      if s == null && exclude != null && exclude.st.Usable() {
        s := exclude;
      }
      Kinds(s);
      if s == null || s == exclude {
        Leftover(exclude);
      }
      if s != null {
        SomeAllowed(s);
      }
    }

    /** Requests one after the other from zero under round robin, none excluding a server, while
        no state changes: if a server takes any, the picks are those of the weighted rounds, so of
        any Total consecutive ones each server gets exactly its weight. */
    method PickInTurn(h: nat, d1: nat, d2: nat, n: nat) returns (picks: seq<Member?>)
      requires Valid() && algo.RoundRobinAlgo? && forall i :: 0 <= i < |actives| ==> CwOf(actives)[i] == 0
      requires hmap.Some? && hmap.value.ver == st.version ==> SlotsFor(actives, hmap.value.slots)
      modifies actives, this`rr, this`hmap
      ensures |picks| == n && WeightsOf(actives) == old(WeightsOf(actives))
      ensures CwOf(actives) == RoundRobin.Cw(WeightsOf(actives), n)
      ensures RoundRobin.Total(WeightsOf(actives)) > 0 ==>
                PickedInTurn(actives, WeightsOf(actives), picks) && InTurnIsFair(actives, WeightsOf(actives), picks)
    {
      hide SlotsFor, WeightsOf, CwOf, RoundRobin.Step, RoundRobin.Cw, RoundRobin.Total, PickedInTurn, InTurnIsFair, ByAlgorithm,
        Moved, PositionOf, NoneAllowed, Valid, Distinct;
      ghost var ws := WeightsOf(actives);
      RoundRobin.CwStart(ws);
      picks := [];
      NothingExcluded(actives);
      NothingPicked(actives, ws);
      for t := 0 to n
        invariant WeightsOf(actives) == ws && CwOf(actives) == RoundRobin.Cw(ws, t)
        invariant hmap.Some? && hmap.value.ver == st.version ==> SlotsFor(actives, hmap.value.slots)
        invariant |picks| == t && (RoundRobin.Total(ws) > 0 ==> PickedInTurn(actives, ws, picks))
      {
        label Before:
        assert forall x :: x in actives ==> allocated(x.st);
        var s := Pick(h, d1, d2, null);
        assert forall x :: x in actives ==> unchanged@Before(x.st);
        assert unchanged@Before(States(actives));
        RoundRobin.CwNext(ws, t);
        MovedRound(RoundRobin.Cw(ws, t));
        if RoundRobin.Total(ws) > 0 {
          SomeTakes(t);
          ChosenRound(h, d1, d2, RoundRobin.Cw(ws, t), s);
          PickedNext(actives, ws, picks, s);
        }
        picks := picks + [s];
      }
      DistinctActives();
      if RoundRobin.Total(ws) > 0 { TurnsAreFair(actives, ws, picks); }
    }

    lemma MovedRound(cw: seq<int>)
      requires algo.RoundRobinAlgo? && |cw| == |actives|
      ensures Moved(null, cw) == RoundRobin.Step(WeightsOf(actives), cw, PositionOf(actives, null)).0
    {
    }

    lemma ChosenRound(h: nat, d1: nat, d2: nat, cw: seq<int>, s: Member)
      requires algo.RoundRobinAlgo? && |cw| == |actives| && ByAlgorithm(h, d1, d2, null, cw, s)
      ensures var p := RoundRobin.Step(WeightsOf(actives), cw, PositionOf(actives, null)).1; p >= 0 && s == actives[p]
    {
    }

    /** If there is weight at all, some server is allowed. */
    lemma SomeTakes(t: nat)
      requires RoundRobin.Total(WeightsOf(actives)) > 0
      ensures !NoneAllowed(actives, null)
    {
      var ws := WeightsOf(actives);
      RoundRobin.SumStaysZero(ws, t);
      RoundRobin.PickIsPositive(ws, t);
      ValuesAt(actives, RoundRobin.Pick(ws, t));
      assert Allowed(actives[RoundRobin.Pick(ws, t)], null);
    }

    lemma SomeAllowed(s: Member)
      requires s in actives + backups && s.Usable()
      ensures !NoneAllowed(actives + backups, null)
    {
      var i :| 0 <= i < |actives + backups| && (actives + backups)[i] == s;
      assert Allowed((actives + backups)[i], null);
    }

    lemma Kinds(s: Member?)
      requires Valid()
      ensures s in actives ==> s !in backups
    {
    }

    lemma Leftover(exclude: Member?)
      requires NoneAllowed(actives, exclude) && NoneAllowed(backups, exclude)
      ensures NoneAllowed(actives + backups, exclude)
      ensures exclude == null || !exclude.Usable() ==> NoneAllowed(actives + backups, null)
    {
    }

    lemma DistinctActives()
      requires Valid()
      ensures Distinct(actives)
    {
    }

    lemma Others(i: nat)
      requires Valid() && i < |actives|
      ensures forall j :: 0 <= j < |actives| && j != i ==> actives[j] != actives[i]
    {
    }

    lemma PositionIs(i: nat, s: Member?)
      requires Valid() && i < |actives|
      ensures actives[i] == s <==> i == PositionOf(actives, s)
    {
      PositionIsRight(actives, s);
      Others(i);
    }
  }
}
