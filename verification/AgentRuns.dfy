/** Every run of an agent (internal/agent/server.go), from an empty root. */
module AgentRuns {
  import opened Agent
  import opened Releases

  datatype Op =
    | Applying(req: Request, env: Env)
    | RollingBack(env: Env)
    | Starting(env: Env)
    | Stopping
    | Booting(bootstrap: Bootstrap, starts: bool) // the agent stops, its engine with it, and starts again

  const FRESH := State(EMPTY_STORE, false, false, false)

  function AfterOp(a: State, op: Op, keep: nat, alwaysOn: bool): State
  {
    match op
    case Applying(req, env) => AfterApply(a, req, env, keep, alwaysOn).0
    case RollingBack(env) => AfterRollback(a, env).0
    case Starting(env) => AfterStartCall(a, env).0
    case Stopping => AfterStopCall(a, alwaysOn)
    case Booting(bootstrap, starts) => AfterBoot(Halted(a), bootstrap, starts)
  }

  function Run(ops: seq<Op>, keep: nat, alwaysOn: bool): State
  {
    if ops == [] then FRESH else AfterOp(Run(ops[..|ops| - 1], keep, alwaysOn), ops[|ops| - 1], keep, alwaysOn)
  }

  /** A request names a release: a digest is never empty. */
  predicate Named(op: Op)
  {
    op.Applying? ==> op.req.Release() != NONE
  }

  lemma OpIsGood(a: State, op: Op, keep: nat, alwaysOn: bool)
    requires Good(a) && Named(op)
    ensures Good(AfterOp(a, op, keep, alwaysOn))
  {
    hide AfterApply, AfterRollback, AfterStartCall, Neat, Current, Bootstrapped, RolledBack;
    match op
    case Applying(req, env) => ApplyIsGood(a, req, env, keep, alwaysOn);
    case RollingBack(env) => RollbackIsGood(a, env);
    case Starting(env) => StartIsGood(a, env);
    case Booting(bootstrap, _) =>
      if Current(a.store) == NONE && bootstrap.Shipped? { BootstrapIsNeat(a.store, bootstrap.files); }
    case Stopping =>
  }

  /** Over every sequence of operations the link and every entry of the history name releases
      that are there, the history ends in the current release, only a wanted engine runs, and none
      that its marker keeps stopped. */
  lemma {:induction false} RunIsGood(ops: seq<Op>, keep: nat, alwaysOn: bool)
    requires forall op :: op in ops ==> Named(op)
    ensures Good(Run(ops, keep, alwaysOn)) && |Run(ops, keep, alwaysOn).store.history| <= 50
  {
    hide AfterOp;
    if ops == [] {
      FreshIsGood();
    } else {
      var init, last := ops[..|ops| - 1], ops[|ops| - 1];
      assert last in ops && forall op :: op in init ==> op in ops;
      RunIsGood(init, keep, alwaysOn);
      OpIsGood(Run(init, keep, alwaysOn), last, keep, alwaysOn);
    }
  }

  lemma FreshIsGood()
    ensures Good(FRESH)
  {
  }

  lemma RunPush(ops: seq<Op>, op: Op, keep: nat, alwaysOn: bool)
    ensures Run(ops + [op], keep, alwaysOn) == AfterOp(Run(ops, keep, alwaysOn), op, keep, alwaysOn)
  {
    hide AfterOp;
    assert (ops + [op])[..|ops|] == ops;
  }

  // ------------------------------------------------------------ a run that repeats a release

  /** An engine that does all it is asked to. */
  const WORKING := Env(true, true, true, true, true, true, true)

  function Applies(rs: seq<Release>): (ops: seq<Op>)
  {
    if rs == [] then [] else Applies(rs[..|rs| - 1]) + [ApplyOf(rs[|rs| - 1])]
  }

  function ApplyOf(r: Release): Op
  {
    Applying(Request(r.files, r.hash, r.hash, false), WORKING)
  }

  lemma ApplyCommits(a: State, r: Release, keep: nat, alwaysOn: bool)
    requires ValidHash(r.hash) && Current(a.store) != r.hash
    ensures AfterOp(a, ApplyOf(r), keep, alwaysOn).store == Committed(a.store, r.hash, r.files, keep)
  {
    hide Written, Activated, Pruned, Reverted, Removed, Current;
  }

  /** Each release differs from the one before it. */
  predicate Changing(rs: seq<Release>)
  {
    |rs| > 1 ==> rs[|rs| - 2].hash != rs[|rs| - 1].hash && Changing(rs[..|rs| - 1])
  }

  lemma ChangingInit(rs: seq<Release>)
    requires rs != [] && Changing(rs)
    ensures Changing(rs[..|rs| - 1]) && (|rs| > 1 ==> rs[..|rs| - 1][|rs| - 2].hash != rs[|rs| - 1].hash)
    ensures rs[|rs| - 1] in rs && forall r :: r in rs[..|rs| - 1] ==> r in rs
  {
  }

  /** Applies that each change the release commit one after the other. */
  lemma {:induction false} AppliesCommit(rs: seq<Release>, keep: nat, alwaysOn: bool)
    requires Changing(rs) && forall r :: r in rs ==> ValidHash(r.hash)
    ensures var s := Run(Applies(rs), keep, alwaysOn).store;
            s == CommittedAll(EMPTY_STORE, rs, keep) && Neat(s) &&
            Current(s) == if rs == [] then NONE else rs[|rs| - 1].hash
  {
    hide AfterOp, Committed, Neat, Sound, Current, ValidHash, Changing, ApplyOf;
    if rs == [] {
      EmptyIsSound();
      FreshIsGood();
      NothingCurrent();
    } else {
      var init, r := rs[..|rs| - 1], rs[|rs| - 1];
      ChangingInit(rs);
      AppliesCommit(init, keep, alwaysOn);
      NotNone(r.hash);
      RunPush(Applies(init), ApplyOf(r), keep, alwaysOn);
      ApplyCommits(Run(Applies(init), keep, alwaysOn), r, keep, alwaysOn);
      NeatCurrent(CommittedAll(EMPTY_STORE, init, keep));
      CommitIsNeat(CommittedAll(EMPTY_STORE, init, keep), r.hash, r.files, keep);
      NeatCurrent(CommittedAll(EMPTY_STORE, rs, keep));
    }
  }

  lemma NothingCurrent()
    ensures Current(EMPTY_STORE) == NONE
  {
  }

  // ------------------------------------------------------------ runs that a rollback does not undo

  lemma RunOne(op: Op, keep: nat, alwaysOn: bool)
    ensures Run([op], keep, alwaysOn) == AfterOp(FRESH, op, keep, alwaysOn)
  {
    hide AfterOp;
    assert [op][..0] == [];
  }

  lemma ApplyWorks(a: State, r: Release, keep: nat, alwaysOn: bool)
    requires Good(a) && ValidHash(r.hash)
    ensures var b := AfterOp(a, ApplyOf(r), keep, alwaysOn);
            Good(b) && b.running && Current(b.store) == r.hash && b.store.history != []
  {
    hide AfterApply, Neat, Current, ValidHash;
    var req := Request(r.files, r.hash, r.hash, false);
    NotNone(r.hash);
    assert req.Release() == r.hash;
    ApplyIsNeat(a, req, WORKING, keep, alwaysOn);
    NeatCurrent(a.store);
    ApplyIsSound(a, req, WORKING, keep, alwaysOn);
    ApplySucceeds(a, req, WORKING, keep, alwaysOn);
    ApplyRuns(a, req, WORKING, keep, alwaysOn);
    ApplyIsAwake(a, req, WORKING, keep, alwaysOn);
  }

  /** The first apply to an engine on its bootstrap release, which is not in the history, changes
      the release, and no rollback undoes it. */
  lemma FirstApplyStays(boot: Files, r: Release, keep: nat, alwaysOn: bool)
    requires ValidHash(r.hash) && 1 <= keep < HISTORY
    ensures var booting := Booting(Shipped(boot, true, true), true);
            var a, b := Run([booting], keep, alwaysOn), Run([booting, ApplyOf(r)], keep, alwaysOn);
            Current(a.store) == BOOTSTRAP && a.running &&
            Current(b.store) == r.hash != BOOTSTRAP && b.running &&
            AfterRollback(b, WORKING) == (b, Response(false, Swap, true))
  {
    hide AfterApply, Neat, ValidHash, Previous, Bootstrapped, Current;
    var booting, req := Booting(Shipped(boot, true, true), true), Request(r.files, r.hash, r.hash, false);
    var a := Run([booting], keep, alwaysOn);
    RunOne(booting, keep, alwaysOn);
    assert [booting] + [ApplyOf(r)] == [booting, ApplyOf(r)];
    RunPush([booting], ApplyOf(r), keep, alwaysOn);
    FreshIsGood();
    NothingCurrent();
    BootstrapIsNeat(EMPTY_STORE, boot);
    BootstrappedHistory(EMPTY_STORE, boot);
    NotNone(r.hash);
    ApplyWorks(a, r, keep, alwaysOn);
    ApplyIsUndoable(a, req, WORKING, keep, alwaysOn);
  }

  lemma BootstrappedHistory(s: Store, files: Files)
    ensures Bootstrapped(s, files).history == s.history
  {
  }

  /** An apply of the release that is current already changes nothing, and a rollback after it
      goes to an older one. */
  lemma SameReleaseGoesBack(r1: Release, r2: Release, keep: nat, alwaysOn: bool)
    requires ValidHash(r1.hash) && ValidHash(r2.hash) && r1.hash != r2.hash && 1 <= keep < HISTORY
    ensures var a := Run([ApplyOf(r1), ApplyOf(r2)], keep, alwaysOn);
            var (b, resp) := AfterApply(a, Request(r2.files, r2.hash, r2.hash, false), WORKING, keep, alwaysOn);
            Current(a.store) == r2.hash && b == a && resp.ok &&
            AfterRollback(b, WORKING).1.ok && Current(AfterRollback(b, WORKING).0.store) == r1.hash
  {
    hide AfterRollback, Neat, ValidHash, Previous, Current, Written, Activated, Removed, AfterOp;
    var req := Request(r2.files, r2.hash, r2.hash, false);
    TwoApplies(r1, r2, keep, alwaysOn);
    var b := Run([ApplyOf(r1), ApplyOf(r2)], keep, alwaysOn);
    RollbackRuns(b, WORKING);
    NotNone(r1.hash);
    NeatCurrent(b.store);
    PreviousIsOther(b.store);
  }

  lemma TwoApplies(r1: Release, r2: Release, keep: nat, alwaysOn: bool)
    requires ValidHash(r1.hash) && ValidHash(r2.hash) && r1.hash != r2.hash && 1 <= keep < HISTORY
    ensures var a := Run([ApplyOf(r1), ApplyOf(r2)], keep, alwaysOn);
            Good(a) && a.running && Current(a.store) == r2.hash && Previous(a.store) == r1.hash
  {
    hide AfterApply, Neat, ValidHash, Previous, Current;
    var a := Run([ApplyOf(r1)], keep, alwaysOn);
    RunOne(ApplyOf(r1), keep, alwaysOn);
    assert [ApplyOf(r1)] + [ApplyOf(r2)] == [ApplyOf(r1), ApplyOf(r2)];
    RunPush([ApplyOf(r1)], ApplyOf(r2), keep, alwaysOn);
    FreshIsGood();
    ApplyWorks(FRESH, r1, keep, alwaysOn);
    ApplyWorks(a, r2, keep, alwaysOn);
    NotNone(r2.hash);
    ApplyIsUndoable(a, Request(r2.files, r2.hash, r2.hash, false), WORKING, keep, alwaysOn);
  }

  /** An engine the user stopped that is given another release to keep stopped: the rollback goes
      back to its release, and starts it. */
  lemma StoppedComesUp(r1: Release, r2: Release, keep: nat)
    requires ValidHash(r1.hash) && ValidHash(r2.hash) && r1.hash != r2.hash && 1 <= keep < HISTORY
    ensures var a := Run([ApplyOf(r1), Stopping], keep, false);
            var (b, resp) := AfterApply(a, Request(r2.files, r2.hash, r2.hash, true), WORKING, keep, false);
            var c := AfterRollback(b, WORKING).0;
            Quiet(a) && Current(a.store) == r1.hash && resp.ok && Quiet(b) &&
            c.running && Current(c.store) == r1.hash
  {
    hide AfterApply, AfterRollback, Neat, ValidHash, Previous, Current;
    var x := Run([ApplyOf(r1)], keep, false);
    var a, req := Run([ApplyOf(r1), Stopping], keep, false), Request(r2.files, r2.hash, r2.hash, true);
    RunOne(ApplyOf(r1), keep, false);
    assert [ApplyOf(r1)] + [Stopping] == [ApplyOf(r1), Stopping];
    RunPush([ApplyOf(r1)], Stopping, keep, false);
    FreshIsGood();
    ApplyWorks(FRESH, r1, keep, false);
    NotNone(r2.hash);
    StopIsQuiet(a, req, WORKING, keep, false);
    ApplyIsUndoable(a, req, WORKING, keep, false);
    RollbackUndoesApply(a, req, WORKING, WORKING, keep, false);
    RollbackRuns(AfterApply(a, req, WORKING, keep, false).0, WORKING);
    NeatCurrent(a.store);
  }

  function Rollbacks(n: nat): seq<Op>
  {
    if n == 0 then [] else Rollbacks(n - 1) + [RollingBack(WORKING)]
  }

  lemma {:induction false} RollbacksRun(ops: seq<Op>, n: nat, keep: nat, alwaysOn: bool)
    ensures Run(ops + Rollbacks(n), keep, alwaysOn).store == RolledBackTimes(Run(ops, keep, alwaysOn).store, n)
  {
    hide AfterRollback, RolledBack, Run, AfterOp;
    if n == 0 {
      assert ops + Rollbacks(0) == ops;
    } else {
      RollbacksRun(ops, n - 1, keep, alwaysOn);
      assert ops + Rollbacks(n) == (ops + Rollbacks(n - 1)) + [RollingBack(WORKING)];
      RunPush(ops + Rollbacks(n - 1), RollingBack(WORKING), keep, alwaysOn);
      RollbackOp(Run(ops + Rollbacks(n - 1), keep, alwaysOn), keep, alwaysOn);
    }
  }

  lemma RollbackOp(a: State, keep: nat, alwaysOn: bool)
    ensures AfterOp(a, RollingBack(WORKING), keep, alwaysOn).store == RolledBack(a.store)
  {
    hide AfterRollback, RolledBack;
    RollbackStore(a, WORKING);
  }

  /** Two releases, the first again, keep others, keep rollbacks, and a stop. */
  function Doubling(a: Release, b: Release, cs: seq<Release>): seq<Op>
  {
    Applies([a, b, a] + cs) + Rollbacks(|cs|) + [Stopping]
  }

  /** Such a run leaves a history that repeats the current release: pruning has dropped the
      release that stood between the two. */
  lemma DoublingRepeats(a: Release, b: Release, cs: seq<Release>, keep: nat, alwaysOn: bool)
    requires Apart(a, b, cs) && |cs| == keep && 1 <= keep && keep + 3 <= HISTORY
    ensures var s := Run(Doubling(a, b, cs), keep, alwaysOn);
            Neat(s.store) &&
            !s.running &&
            s.store.history == [a.hash, a.hash] &&
            Current(s.store) == a.hash
  {
    hide Committed, CommittedAll, RolledBackTimes, Neat, NoneTwice, AfterOp, ValidHash, Apart, Run, Alternates;
    var rs, n := [a, b, a] + cs, |cs|;
    ApartIs(a, b, cs);
    AppliesCommit(rs, keep, alwaysOn);
    DoubledHistory(a, b, cs, keep);
    RollbacksRun(Applies(rs), n, keep, alwaysOn);
    var t := [a.hash] + Hashes(cs);
    RollbacksShorten(CommittedAll(EMPTY_STORE, rs, keep), [a.hash], t, n);
    assert t[..|t| - n] == [a.hash];
    assert [a.hash] + [a.hash] == [a.hash, a.hash] && Last([a.hash]) == a.hash;
    RunPush(Applies(rs) + Rollbacks(n), Stopping, keep, alwaysOn);
    StopKeepsStore(Run(Applies(rs) + Rollbacks(n), keep, alwaysOn), keep, alwaysOn);
  }

  lemma StopKeepsStore(a: State, keep: nat, alwaysOn: bool)
    ensures var b := AfterOp(a, Stopping, keep, alwaysOn); b.store == a.store && !b.running
  {
  }

  /** Valid names, all different. */
  ghost predicate Apart(a: Release, b: Release, cs: seq<Release>)
  {
    ValidHash(a.hash) && ValidHash(b.hash) && a.hash != b.hash && (forall r :: r in cs ==> ValidHash(r.hash)) &&
    NoneTwice(Hashes(cs)) && a.hash !in Hashes(cs) && b.hash !in Hashes(cs)
  }

  lemma {:induction false} HashesAt(rs: seq<Release>, i: nat)
    requires i < |rs|
    ensures Hashes(rs)[i] == rs[i].hash
    decreases |rs|
  {
    if i < |rs| - 1 { HashesAt(rs[..|rs| - 1], i); }
  }

  lemma ApartIs(a: Release, b: Release, cs: seq<Release>)
    requires Apart(a, b, cs)
    ensures a.hash != b.hash && NONE !in {a.hash, b.hash} && BOOTSTRAP !in {a.hash, b.hash}
    ensures NONE !in Hashes(cs) && BOOTSTRAP !in Hashes(cs)
    ensures NoneTwice(Hashes(cs)) && a.hash !in Hashes(cs) && b.hash !in Hashes(cs)
    ensures Changing([a, b, a] + cs) && forall r :: r in [a, b, a] + cs ==> ValidHash(r.hash)
  {
    hide ValidHash;
    NotNone(a.hash);
    NotNone(b.hash);
    forall i | 0 <= i < |cs|
      ensures Hashes(cs)[i] == cs[i].hash && cs[i].hash != NONE && cs[i].hash != BOOTSTRAP
    {
      assert cs[i] in cs;
      HashesAt(cs, i);
      NotNone(cs[i].hash);
    }
    ApartChanging(a, b, cs);
    assert forall r :: r in [a, b, a] + cs ==> r in [a, b, a] || r in cs;
  }

  lemma {:induction false} ApartChanging(a: Release, b: Release, cs: seq<Release>)
    requires a.hash != b.hash && NoneTwice(Hashes(cs)) && a.hash !in Hashes(cs)
    ensures Changing([a, b, a] + cs)
    decreases |cs|
  {
    hide NoneTwice, Changing, Hashes;
    if cs == [] {
      ChangingTwice(a, b);
      assert [a, b, a] + cs == [a, b, a];
    } else {
      var init, c := cs[..|cs| - 1], cs[|cs| - 1];
      HashesInit(cs);
      ApartChanging(a, b, init);
      LastOfHashes(a, b, init);
      assert [a, b, a] + cs == ([a, b, a] + init) + [c];
      ChangingPush([a, b, a] + init, c);
    }
  }

  lemma ChangingTwice(a: Release, b: Release)
    requires a.hash != b.hash
    ensures Changing([a, b, a])
  {
    assert [a, b, a][..2] == [a, b] && Changing([a]);
    assert [a, b][..1] == [a] && Changing([a, b]);
  }

  lemma ChangingPush(rs: seq<Release>, r: Release)
    requires Changing(rs) && (rs != [] ==> rs[|rs| - 1].hash != r.hash)
    ensures Changing(rs + [r])
  {
    assert (rs + [r])[..|rs|] == rs;
  }

  lemma LastOfHashes(a: Release, b: Release, init: seq<Release>)
    ensures var rs := [a, b, a] + init; rs[|rs| - 1].hash == a.hash || rs[|rs| - 1].hash in Hashes(init)
  {
    var rs := [a, b, a] + init;
    if init == [] {
      assert rs[|rs| - 1] == a;
    } else {
      assert rs[|rs| - 1] == init[|init| - 1];
      assert Hashes(init)[|init| - 1] == init[|init| - 1].hash;
    }
  }

  /** The condition on the history is needed: from an empty root, a failed restart of the current
      release can shorten the history. */
  lemma FailedRestartLosesEntry(a: Release, b: Release, cs: seq<Release>, keep: nat, alwaysOn: bool)
    requires Apart(a, b, cs) && |cs| == keep && 1 <= keep && keep + 3 <= HISTORY
    ensures var s := Run(Doubling(a, b, cs), keep, alwaysOn);
            var req, env := Request(a.files, a.hash, a.hash, false), WORKING.(starts := false);
            Current(s.store) == a.hash == Last(s.store.history) &&
            !AfterApply(s, req, env, keep, alwaysOn).1.ok &&
            AfterApply(s, req, env, keep, alwaysOn).0.store.history != s.store.history
  {
    hide Run, Doubling, Neat, Apart, Written, Activated, Pruned, Reverted, Removed, Current;
    var s := Run(Doubling(a, b, cs), keep, alwaysOn);
    var req, env := Request(a.files, a.hash, a.hash, false), WORKING.(starts := false);
    DoublingRepeats(a, b, cs, keep, alwaysOn);
    ApartName(a, b, cs);
    assert !AfterApply(s, req, env, keep, alwaysOn).1.ok;
    FailedApplyHistory(s, req, env, keep, alwaysOn);
  }

  lemma ApartName(a: Release, b: Release, cs: seq<Release>)
    requires Apart(a, b, cs)
    ensures ValidHash(a.hash) && a.hash != NONE
  {
    NotNone(a.hash);
  }
}
