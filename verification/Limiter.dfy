/**
  The connection limit of the listeners (internal/balancer/listener.go), as interleaved atomic
  steps: every region under the limiter's lock is one step, and so is every channel operation.

  Accept loops take a slot before they accept; a connection keeps the slot of its accept until
  its close gives it back, once. Waiters sleep on a channel that the next release or the next
  change of the limit closes.
 */
module Limiter {
  import opened Common

  type Loop = nat
  type Conn = nat
  type Chan = nat

  /** An accept loop: about to take a slot, asleep on a channel, holding a slot while it
      accepts, or ended. */
  datatype Phase = Trying | Sleeping(ch: Chan) | Accepting | Stopped

  datatype State = State(
    max: int, cur: int, wake: Option<Chan>, closed: set<Chan>, made: nat,
    loops: map<Loop, Phase>,
    accepting: set<Loop>, // the loops in phase Accepting
    accepted: set<Conn>, // every connection ever accepted
    once: set<Conn>, // those whose close has begun
    closing: set<Conn>, // those between the begin of their close and their release
    releases: map<Conn, nat>) // how often each gave a slot back

  datatype Step =
    | Acquire(t: Loop)
    | Awake(t: Loop)
    | GiveUp(t: Loop)
    | AcceptFails(t: Loop, ends: bool)
    | Accepts(t: Loop, c: Conn)
    | Close(c: Conn)
    | Release(c: Conn)
    | SetMax(n: int)

  /** Closes the channel the waiters sleep on. */
  function Broadcast(s: State): State
  {
    if s.wake.Some? then s.(closed := s.closed + {s.wake.value}, wake := None) else s
  }

  ghost predicate Takes(s: State, s': State, step: Step)
  {
    match step
    case Acquire(t) =>
      t in s.loops && s.loops[t].Trying? &&
      if s.max <= 0 || s.cur < s.max then
        s' == s.(cur := s.cur + 1, loops := s.loops[t := Accepting], accepting := s.accepting + {t})
      else if s.wake.Some? then
        s' == s.(loops := s.loops[t := Sleeping(s.wake.value)])
      else
        s' == s.(wake := Some(s.made), made := s.made + 1, loops := s.loops[t := Sleeping(s.made)])
    case Awake(t) =>
      t in s.loops && s.loops[t].Sleeping? && s.loops[t].ch in s.closed &&
      s' == s.(loops := s.loops[t := Trying])
    case GiveUp(t) =>
      t in s.loops && s.loops[t].Sleeping? && s' == s.(loops := s.loops[t := Stopped])
    case AcceptFails(t, ends) =>
      t in s.accepting &&
      s' == Broadcast(s.(cur := s.cur - 1, accepting := s.accepting - {t},
                         loops := s.loops[t := if ends then Stopped else Trying]))
    case Accepts(t, c) =>
      t in s.accepting && c !in s.accepted &&
      s' == s.(accepting := s.accepting - {t}, loops := s.loops[t := Trying],
               accepted := s.accepted + {c}, releases := s.releases[c := 0])
    case Close(c) =>
      // Any number of closes of one connection: only the first one does anything.
      c in s.accepted &&
      if c in s.once then s' == s else s' == s.(once := s.once + {c}, closing := s.closing + {c})
    case Release(c) =>
      c in s.closing &&
      s' == Broadcast(s.(cur := s.cur - 1, closing := s.closing - {c},
                         releases := s.releases[c := (if c in s.releases then s.releases[c] else 0) + 1]))
    case SetMax(n) =>
      s' == Broadcast(s.(max := n))
  }

  ghost predicate Init(s: State)
  {
    s.cur == 0 && s.wake == None && s.closed == {} && s.made == 0 &&
    s.accepting == {} && s.accepted == {} && s.once == {} && s.closing == {} && s.releases == map[] &&
    forall t :: t in s.loops ==> s.loops[t] == Trying
  }

  ghost predicate Next(s: State, s': State)
  {
    exists step :: Takes(s, s', step)
  }

  // ------------------------------------------------------------ invariant

  /** The connections that hold a slot: accepted, and not released yet. */
  function Holding(s: State): set<Conn>
  {
    (s.accepted - s.once) + s.closing
  }

  ghost predicate BooksOk(s: State)
  {
    s.once <= s.accepted && s.closing <= s.once &&
    (forall t :: t in s.accepting <==> t in s.loops && s.loops[t].Accepting?) &&
    s.releases.Keys == s.accepted &&
    forall c :: c in s.accepted ==> s.releases[c] == if c in Holding(s) then 0 else 1
  }

  ghost predicate CountOk(s: State)
  {
    s.cur == |s.accepting| + |Holding(s)|
  }

  ghost predicate WakeOk(s: State)
  {
    (s.wake.Some? ==> s.wake.value !in s.closed && s.wake.value < s.made && 0 < s.max <= s.cur) &&
    (forall ch :: ch in s.closed ==> ch < s.made) &&
    forall t :: t in s.loops && s.loops[t].Sleeping? ==> s.loops[t].ch in s.closed || s.wake == Some(s.loops[t].ch)
  }

  ghost predicate Inv(s: State)
  {
    BooksOk(s) && CountOk(s) && WakeOk(s)
  }

  lemma StepKeepsBooks(s: State, s': State, step: Step)
    ensures BooksOk(s) && Takes(s, s', step) ==> BooksOk(s')
  {
  }

  /** What a step does to the connections that hold a slot. */
  lemma StepHolding(s: State, s': State, step: Step)
    requires BooksOk(s) && Takes(s, s', step)
    ensures Holding(s') ==
            if step.Accepts? then Holding(s) + {step.c}
            else if step.Release? then Holding(s) - {step.c}
            else Holding(s)
    ensures step.Accepts? ==> step.c !in Holding(s)
    ensures step.Release? ==> step.c in Holding(s)
  {
  }

  lemma CountAdds<T>(xs: set<T>, x: T)
    ensures |xs + {x}| == |xs| + if x in xs then 0 else 1
    ensures |xs - {x}| == |xs| - if x in xs then 1 else 0
  {
    if x in xs { assert xs + {x} == xs; } else { assert xs - {x} == xs; }
  }

  /** What a step does to the counter and to the loops that hold a slot. */
  lemma StepAccepting(s: State, s': State, step: Step)
    requires BooksOk(s) && Takes(s, s', step)
    ensures step.Acquire? && s'.accepting != s.accepting ==>
              step.t !in s.accepting && s'.accepting == s.accepting + {step.t} && s'.cur == s.cur + 1
    ensures step.AcceptFails? ==> step.t in s.accepting && s'.accepting == s.accepting - {step.t} && s'.cur == s.cur - 1
    ensures step.Accepts? ==> step.t in s.accepting && s'.accepting == s.accepting - {step.t} && s'.cur == s.cur
    ensures step.Release? ==> s'.accepting == s.accepting && s'.cur == s.cur - 1
    ensures !(step.Accepts? || step.AcceptFails? || step.Release?) && s'.accepting == s.accepting ==> s'.cur == s.cur
    ensures s'.accepting != s.accepting ==> step.Acquire? || step.AcceptFails? || step.Accepts?
  {
    if step.Acquire? { assert step.t !in s.accepting && step.t in s.accepting + {step.t}; }
  }

  lemma StepKeepsCount(s: State, s': State, step: Step)
    requires BooksOk(s) && CountOk(s) && Takes(s, s', step)
    ensures CountOk(s')
  {
    hide Holding, Takes, BooksOk;
    StepHolding(s, s', step);
    StepAccepting(s, s', step);
    if step.Acquire? || step.AcceptFails? || step.Accepts? { CountAdds(s.accepting, step.t); }
    if step.Accepts? || step.Release? { CountAdds(Holding(s), step.c); }
  }

  lemma StepKeepsWake(s: State, s': State, step: Step)
    ensures WakeOk(s) && Takes(s, s', step) ==> WakeOk(s')
  {
  }

  // ------------------------------------------------------------ every run

  ghost predicate IsRun(run: seq<State>)
  {
    run != [] && Init(run[0]) && forall i :: 0 <= i < |run| - 1 ==> Next(run[i], run[i + 1])
  }

  lemma InitHolds(s: State)
    ensures Init(s) ==> Inv(s)
  {
  }

  lemma RunKeepsInv(run: seq<State>)
    requires IsRun(run)
    ensures forall i :: 0 <= i < |run| ==> Inv(run[i])
  {
    hide BooksOk, CountOk, WakeOk, Takes, Init;
    InitHolds(run[0]);
    for n := 0 to |run|
      invariant forall i :: 0 <= i < n ==> Inv(run[i])
    {
      if n > 0 {
        assert Next(run[n - 1], run[n - 1 + 1]);
        var step :| Takes(run[n - 1], run[n], step);
        StepKeepsBooks(run[n - 1], run[n], step);
        StepKeepsCount(run[n - 1], run[n], step);
        StepKeepsWake(run[n - 1], run[n], step);
      }
    }
  }

  /** In every interleaving the counter is the number of slots held, every accepted connection
      has given its slot back exactly once or still holds it, and no loop sleeps on an open
      channel while a slot is free. */
  lemma LimiterIsSafe(run: seq<State>, i: nat, t: Loop, c: Conn)
    requires IsRun(run) && i < |run|
    ensures var s := run[i];
            s.cur == |s.accepting| + |Holding(s)| &&
            (c in s.accepted ==> c in s.releases && s.releases[c] == if c in Holding(s) then 0 else 1) &&
            (t in s.loops && s.loops[t].Sleeping? && s.loops[t].ch !in s.closed ==> 0 < s.max <= s.cur)
  {
    RunKeepsInv(run);
  }

  /** A sleeper can go on as soon as a slot is free. */
  lemma FreeSlotWakes(run: seq<State>, i: nat, t: Loop)
    requires IsRun(run) && i < |run|
    requires t in run[i].loops && run[i].loops[t].Sleeping?
    requires run[i].max <= 0 || run[i].cur < run[i].max
    ensures exists s' :: Takes(run[i], s', Awake(t))
  {
    RunKeepsInv(run);
    var s' := run[i].(loops := run[i].loops[t := Trying]);
    assert Takes(run[i], s', Awake(t));
  }

  /** A woken sleeper that looks while a slot is free takes it. */
  lemma WokenTakesSlot(s: State, t: Loop) returns (s1: State, s2: State)
    requires t in s.loops && s.loops[t].Sleeping? && s.loops[t].ch in s.closed && (s.max <= 0 || s.cur < s.max)
    ensures Takes(s, s1, Awake(t)) && Takes(s1, s2, Acquire(t))
    ensures s2 == s.(cur := s.cur + 1, loops := s.loops[t := Accepting], accepting := s.accepting + {t})
  {
    s1 := s.(loops := s.loops[t := Trying]);
    s2 := TryTakesSlot(s1, t);
    assert s1.loops[t := Accepting] == s.loops[t := Accepting];
  }

  lemma TryTakesSlot(s: State, t: Loop) returns (s': State)
    requires t in s.loops && s.loops[t].Trying? && (s.max <= 0 || s.cur < s.max)
    ensures Takes(s, s', Acquire(t))
    ensures s' == s.(cur := s.cur + 1, loops := s.loops[t := Accepting], accepting := s.accepting + {t})
  {
    s' := s.(cur := s.cur + 1, loops := s.loops[t := Accepting], accepting := s.accepting + {t});
  }

  /** A limit raised above the slots held wakes a sleeper, and its next look takes a slot. */
  lemma RaisedLimitAdmits(s: State, t: Loop, n: int) returns (s1: State, s2: State, s3: State)
    requires Inv(s) && t in s.loops && s.loops[t].Sleeping? && (n <= 0 || s.cur < n)
    ensures Takes(s, s1, SetMax(n)) && Takes(s1, s2, Awake(t)) && Takes(s2, s3, Acquire(t))
    ensures s3.loops == s.loops[t := Accepting] && s3.max == n && s3.cur == s.cur + 1
  {
    s1 := Broadcast(s.(max := n));
    s2, s3 := WokenTakesSlot(s1, t);
  }

  /** A close gives the slot of its connection back and wakes every sleeper. */
  lemma CloseReleases(s: State, c: Conn) returns (s1: State, s2: State)
    requires BooksOk(s) && WakeOk(s) && c in s.accepted - s.once
    ensures Takes(s, s1, Close(c)) && Takes(s1, s2, Release(c))
    ensures s2.loops == s.loops && s2.max == s.max && s2.cur == s.cur - 1
    ensures s2.accepted == s.accepted && s2.once == s.once + {c} && s2.closing == s.closing && c !in s.closing
    ensures forall t :: t in s.loops && s.loops[t].Sleeping? ==> s.loops[t].ch in s2.closed
  {
    assert c !in s.closing && c in s.releases && s.releases[c] == 0;
    hide BooksOk;
    s1 := s.(once := s.once + {c}, closing := s.closing + {c});
    s2 := Broadcast(s1.(cur := s1.cur - 1, closing := s.closing, releases := s1.releases[c := 1]));
    assert s1.closing - {c} == s.closing;
  }

  /** The close of a connection hands its slot over: unless more slots are held than the limit
      allows, it wakes a sleeper, whose next look takes the slot. */
  lemma CloseAdmits(s: State, t: Loop, c: Conn) returns (s1: State, s2: State, s3: State, s4: State)
    requires Inv(s) && t in s.loops && s.loops[t].Sleeping? && c in s.accepted - s.once && (s.max <= 0 || s.cur <= s.max)
    ensures Takes(s, s1, Close(c)) && Takes(s1, s2, Release(c)) && Takes(s2, s3, Awake(t)) && Takes(s3, s4, Acquire(t))
    ensures s4.loops == s.loops[t := Accepting] && s4.cur == s.cur && Holding(s4) == Holding(s) - {c}
  {
    s1, s2 := CloseReleases(s, c);
    hide Takes, BooksOk, CountOk, WakeOk;
    s3, s4 := WokenTakesSlot(s2, t);
  }

  /** A loop that looks takes a slot if one is free. Otherwise it falls asleep on the channel that
      the next release or change of the limit closes, and takes none. */
  lemma LookTakesOrSleeps(s: State, s': State, t: Loop)
    requires Inv(s) && Takes(s, s', Acquire(t))
    ensures if s.max <= 0 || s.cur < s.max then t in s'.accepting && s'.cur == s.cur + 1
            else s'.cur == s.cur && s'.wake.Some? && s'.loops == s.loops[t := Sleeping(s'.wake.value)]
    ensures Broadcast(s').wake == None && (s'.wake.Some? ==> s'.wake.value in Broadcast(s').closed)
  {
  }

  lemma FailsAccept(s: State, t: Loop) returns (s': State)
    requires t in s.accepting
    ensures Takes(s, s', AcceptFails(t, false)) && s'.max == s.max && s'.cur == s.cur - 1
    ensures s'.accepting == s.accepting - {t} && s'.loops == s.loops[t := Trying]
  {
    s' := Broadcast(s.(cur := s.cur - 1, accepting := s.accepting - {t}, loops := s.loops[t := Trying]));
  }

  /** A loop whose accept fails, but not for good, gives its slot back and can take one again. */
  lemma FailedAcceptRetries(s: State, t: Loop) returns (s1: State, s2: State)
    requires Inv(s) && t in s.accepting && (s.max <= 0 || s.cur <= s.max)
    ensures Takes(s, s1, AcceptFails(t, false)) && Takes(s1, s2, Acquire(t))
    ensures s2.loops == s.loops && s2.accepting == s.accepting && s2.cur == s.cur
  {
    assert t in s.loops && s.loops[t].Accepting?;
    hide BooksOk, CountOk, WakeOk;
    hide Takes;
    s1 := FailsAccept(s, t);
    s2 := TryTakesSlot(s1, t);
  }

  lemma StoppedStays(s: State, s': State, step: Step, t: Loop)
    requires BooksOk(s) && Takes(s, s', step)
    requires (t in s.loops && s.loops[t] == Stopped) || (step == GiveUp(t) || step == AcceptFails(t, true))
    ensures t in s'.loops && s'.loops[t] == Stopped
  {
  }

  /** A loop that gives up waiting, or whose accept fails for good, never takes a slot again. */
  lemma {:induction false} LoopEnds(run: seq<State>, i: nat, j: nat, t: Loop, step: Step)
    requires IsRun(run) && i < j < |run| && Takes(run[i], run[i + 1], step)
    requires step == GiveUp(t) || step == AcceptFails(t, true)
    ensures t in run[j].loops && run[j].loops[t] == Stopped
  {
    hide Takes, BooksOk, CountOk, WakeOk;
    RunKeepsInv(run);
    if i + 1 < j {
      LoopEnds(run, i, j - 1, t, step);
      assert Next(run[j - 1], run[j - 1 + 1]);
      var last :| Takes(run[j - 1], run[j], last);
      StoppedStays(run[j - 1], run[j], last, t);
    } else {
      StoppedStays(run[i], run[j], step, t);
    }
  }

  /** No step of any run raises the counter above a positive limit, even one lowered below the
      slots already held. */
  lemma NeverRaisedAbove(run: seq<State>, i: nat)
    requires IsRun(run) && i + 1 < |run| && run[i + 1].cur > run[i].cur
    ensures run[i + 1].cur == run[i].cur + 1 && (0 < run[i].max ==> run[i + 1].cur <= run[i + 1].max)
  {
    assert Next(run[i], run[i + 1]);
    var step :| Takes(run[i], run[i + 1], step);
  }

  /** From any point at which the counter is within a positive limit, it stays within it until
      the limit is lowered. */
  lemma {:induction false} LimitHolds(run: seq<State>, from: nat, i: nat)
    requires IsRun(run) && from <= i < |run| && run[from].cur <= run[from].max
    requires forall j :: from <= j <= i ==> 0 < run[j].max
    requires forall j :: from < j <= i ==> run[j - 1].max <= run[j].max
    ensures run[i].cur <= run[i].max
    decreases i
  {
    if i > from {
      LimitHolds(run, from, i - 1);
      assert Next(run[i - 1], run[i - 1 + 1]);
      var step :| Takes(run[i - 1], run[i], step);
    }
  }
}
