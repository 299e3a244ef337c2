/**
  Interrupting a server connection (internal/balancer/conn.go): reads and writes push the
  deadline into the future (extend), kick puts it into the past for good. Both run in any
  number of threads; every atomic load or store and every deadline change is one step. The
  connection is not rearmed in between.
 */
module IdleConn {

  type Thread = nat

  datatype Deadline = Past | Future

  /** Where a thread is: in extend, past its first look at the flag (Unkicked), about to store
      the time (Throttled passed: Due), about to push the deadline (Pushing), about to look at
      the flag again (Checking), about to take the push back (TakingBack); or in kick, with the
      flag stored (Flagged) and the time reset (Reset). */
  datatype Phase = Outside | Unkicked | Due | Pushing | Checking | TakingBack | Flagged | Reset

  /** finished tells whether some kick has run to its end. */
  datatype State = State(kicked: bool, deadline: Deadline, phases: map<Thread, Phase>, finished: bool)

  datatype Step =
    | BeginExtend(t: Thread)
    | LeaveExtend(t: Thread) // no timeout, deadlines managed by the caller, or pushed just now
    | ReadLast(t: Thread)
    | StoreLast(t: Thread)
    | Push(t: Thread)
    | CheckAgain(t: Thread)
    | TakeBack(t: Thread)
    | BeginKick(t: Thread)
    | ResetLast(t: Thread)
    | EndKick(t: Thread)

  function PhaseOf(s: State, t: Thread): Phase
  {
    if t in s.phases then s.phases[t] else Outside
  }

  function Moved(s: State, t: Thread, p: Phase): State
  {
    s.(phases := s.phases[t := p])
  }

  ghost predicate Takes(s: State, s': State, step: Step)
  {
    var p := PhaseOf(s, step.t);
    match step
    case BeginExtend(t) => p.Outside? && s' == Moved(s, t, if s.kicked then Outside else Unkicked)
    case LeaveExtend(t) => p.Unkicked? && s' == Moved(s, t, Outside)
    case ReadLast(t) => p.Unkicked? && s' == Moved(s, t, Due)
    case StoreLast(t) => p.Due? && s' == Moved(s, t, Pushing)
    case Push(t) => p.Pushing? && s' == Moved(s, t, Checking).(deadline := Future)
    case CheckAgain(t) => p.Checking? && s' == Moved(s, t, if s.kicked then TakingBack else Outside)
    case TakeBack(t) => p.TakingBack? && s' == Moved(s, t, Outside).(deadline := Past)
    case BeginKick(t) => p.Outside? && s' == Moved(s, t, Flagged).(kicked := true)
    case ResetLast(t) => p.Flagged? && s' == Moved(s, t, Reset)
    case EndKick(t) => p.Reset? && s' == Moved(s, t, Outside).(deadline := Past, finished := true)
  }

  ghost predicate Next(s: State, s': State)
  {
    exists step :: Takes(s, s', step)
  }

  /** The connection as it is before a kick: any deadline, any number of extends under way. */
  ghost predicate Init(s: State)
  {
    !s.kicked && !s.finished && forall t :: t in s.phases ==> s.phases[t] !in {TakingBack, Flagged, Reset}
  }

  /** Only a kick puts deadlines into the past, and a kicked connection whose deadline is not in
      the past has a thread that still puts it there. */
  ghost predicate Inv(s: State)
  {
    (s.finished ==> s.kicked) &&
    (forall t :: t in s.phases && s.phases[t] in {TakingBack, Flagged, Reset} ==> s.kicked) &&
    (s.kicked && s.deadline == Future ==>
      exists t :: t in s.phases && s.phases[t] in {Checking, TakingBack, Flagged, Reset})
  }

  lemma StepKeepsInv(s: State, s': State, step: Step)
    requires Inv(s) && Takes(s, s', step)
    ensures Inv(s')
  {
    if s'.kicked && s'.deadline == Future {
      if s.kicked && s.deadline == Future {
        var t :| t in s.phases && s.phases[t] in {Checking, TakingBack, Flagged, Reset};
        assert t in s'.phases;
        assert step.t in s'.phases;
      } else {
        assert step.t in s'.phases;
      }
    }
  }

  ghost predicate IsRun(run: seq<State>)
  {
    run != [] && Init(run[0]) && forall i :: 0 <= i < |run| - 1 ==> Next(run[i], run[i + 1])
  }

  lemma RunKeepsInv(run: seq<State>)
    requires IsRun(run)
    ensures forall i :: 0 <= i < |run| ==> Inv(run[i])
  {
    for n := 0 to |run|
      invariant forall i :: 0 <= i < n ==> Inv(run[i])
    {
      if n > 0 {
        assert Next(run[n - 1], run[n - 1 + 1]);
        var step :| Takes(run[n - 1], run[n], step);
        StepKeepsInv(run[n - 1], run[n], step);
      }
    }
  }

  /** In every interleaving, once some kick has ended and no extend or kick is under way, the
      deadline is in the past: pending reads and writes stay unblocked. */
  lemma KickWins(run: seq<State>, i: nat)
    requires IsRun(run) && i < |run|
    requires run[i].finished && forall t :: t in run[i].phases ==> run[i].phases[t] == Outside
    ensures run[i].deadline == Past
  {
    RunKeepsInv(run);
  }

  /** Before a kick a deadline that was pushed stays in the future: extends never interrupt. */
  lemma {:induction false} OnlyKicksInterrupt(run: seq<State>, i: nat, j: nat)
    requires IsRun(run) && i <= j < |run| && run[i].deadline == Future && !run[j].kicked
    ensures run[j].deadline == Future
  {
    if i < j {
      RunKeepsInv(run);
      assert Inv(run[j - 1]);
      assert Next(run[j - 1], run[j - 1 + 1]);
      OnlyKicksInterrupt(run, i, j - 1);
    }
  }

  /** Nothing is left that would push the deadline of a kicked connection. */
  ghost predicate Settled(s: State)
  {
    s.kicked && s.deadline == Past && forall t :: t in s.phases ==> s.phases[t] !in {Unkicked, Due, Pushing}
  }

  /** And nothing will: an extend that begins after a kick never pushes the deadline, so once it is
      past and no earlier extend is under way it is past for good. */
  lemma {:induction false} KickedForGood(run: seq<State>, i: nat, j: nat)
    requires IsRun(run) && i <= j < |run| && Settled(run[i])
    ensures Settled(run[j])
  {
    if i < j {
      KickedForGood(run, i, j - 1);
      assert Next(run[j - 1], run[j - 1 + 1]);
    }
  }

  /** The second look at the flag is what it takes: with a thread between its push and that
      look, a finished kick's deadline can be in the future. Thread 0 decides to push, thread 1
      kicks, and thread 0 pushes. */
  lemma KickMayLag() returns (run: seq<State>)
    ensures IsRun(run)
    ensures var last := run[|run| - 1];
            last.finished && last.deadline == Future && PhaseOf(last, 0) == Checking
  {
    run := [
      State(false, Past, map[], false),
      State(false, Past, map[0 := Unkicked], false),
      State(false, Past, map[0 := Due], false),
      State(false, Past, map[0 := Pushing], false),
      State(true, Past, map[0 := Pushing, 1 := Flagged], false),
      State(true, Past, map[0 := Pushing, 1 := Reset], false),
      State(true, Past, map[0 := Pushing, 1 := Outside], true),
      State(true, Future, map[0 := Checking, 1 := Outside], true)];
    var steps := [BeginExtend(0), ReadLast(0), StoreLast(0), BeginKick(1), ResetLast(1), EndKick(1), Push(0)];
    forall i | 0 <= i < |run| - 1
      ensures Next(run[i], run[i + 1])
    {
      assert Takes(run[i], run[i + 1], steps[i]);
    }
  }
}
