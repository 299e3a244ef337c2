/**
  The agent of one engine (internal/agent/server.go): it applies a file set by writing a
  release, validating it, swapping to it and reloading or starting the engine, and goes back
  when the engine refuses. What the engine does is decided by an environment.
 */
module Agent {
  import opened Releases

  datatype Stage = Validate | Reload | Start | Stop | Swap

  /** hash is what the caller sent, digest the digest of the files (Validity of the former
      decides which one names the release). */
  datatype Request = Request(files: Files, hash: Hash, digest: Hash, stop: bool)
  {
    /** Stop without a file set. */
    predicate Bare()
    {
      stop && |files| == 0 && hash == NONE
    }

    function Release(): Hash
    {
      if ValidHash(hash) then hash else digest
    }
  }

  datatype Response = Response(ok: bool, stage: Stage, running: bool)

  /** What the engine and its files make of one operation: whether the files are acceptable,
      the engine validates them, is still alive when it is to be reloaded, reloads, is alive
      after a failed reload, starts and stays up, and does so again on the previous release. */
  datatype Env = Env(
    filesOk: bool, validates: bool, alive: bool, reloads: bool, aliveAfter: bool, starts: bool, restarts: bool)

  /** An agent: its releases, whether the engine runs, whether the supervisor wants it to, and
      the marker that keeps it stopped across restarts. */
  datatype State = State(store: Store, running: bool, wanted: bool, stopped: bool)

  /** What an engine ships to run before its first apply. */
  datatype Bootstrap = Nothing | Shipped(files: Files, proxy: bool, selected: bool)

  predicate HexDigit(c: char)
  {
    '0' <= c <= '9' || 'a' <= c <= 'f'
  }

  predicate ValidHash(h: Hash)
  {
    8 <= |h| <= 64 && forall i :: 0 <= i < |h| ==> HexDigit(h[i])
  }

  /** A digest is none of the special names. */
  lemma NotNone(h: Hash)
    requires ValidHash(h)
    ensures h != NONE && h != BOOTSTRAP
  {
    assert BOOTSTRAP[1] == 'o' && !HexDigit('o');
  }

  // ------------------------------------------------------------ the supervisor

  function Halted(a: State): State
  {
    a.(running := false, wanted := false)
  }

  /** Starts the engine and waits whether it stays up; one that does not is stopped. */
  function Started(a: State, ok: bool): State
  {
    if ok then a.(running := true, wanted := true) else Halted(a)
  }

  // ------------------------------------------------------------ operations

  /** Reload of a running engine, and the way back when it fails. */
  function AfterReload(a: State, hash: Hash, prev: Hash, env: Env, keep: nat): (State, Response)
  {
    if env.reloads then
      var b := a.(store := Pruned(a.store, keep));
      (b, Response(true, Reload, b.running))
    else
      var b := a.(store := Reverted(a.store, hash, prev), running := env.aliveAfter);
      var c := if b.running || prev == NONE then b else Started(b, env.restarts);
      (c, Response(false, Reload, c.running))
  }

  /** Start of a stopped engine, and the way back when it fails: an engine that was wanted, or
      is to run whenever it is configured, gets its previous release back; another one stays
      stopped. */
  function AfterStart(a: State, hash: Hash, prev: Hash, wasWanted: bool, wasStopped: bool, alwaysOn: bool, env: Env, keep: nat)
    : (State, Response)
  {
    if env.starts then
      var b := Started(a, true);
      (b.(store := Pruned(b.store, keep)), Response(true, Reload, true))
    else
      var b := Halted(a).(store := Reverted(a.store, hash, prev));
      var c :=
        if prev != NONE && (wasWanted || (alwaysOn && !wasStopped)) then Started(b, env.restarts)
        else if prev == NONE || !wasWanted then
          b.(stopped := if !wasWanted && (!alwaysOn || wasStopped) then true else b.stopped)
        else b;
      (c, Response(false, Start, c.running))
  }

  function AfterApply(a: State, req: Request, env: Env, keep: nat, alwaysOn: bool): (State, Response)
  {
    var prev := Current(a.store);
    var hash := req.Release();
    if req.Bare() then (Halted(a).(stopped := true), Response(true, Stop, false))
    else if !req.stop && !env.filesOk then (a, Response(false, Validate, a.running))
    else if !req.stop && hash == prev && a.running then (a, Response(true, Reload, true))
    else
      var created := hash !in a.store.dirs;
      var s1 := Written(a.store, hash, req.files);
      if !req.stop && !env.validates then
        (a.(store := if created then Removed(s1, hash) else s1), Response(false, Validate, a.running))
      else
        AfterSwap(a.(store := Activated(s1, hash)), hash, prev, req.stop, env, keep, alwaysOn)
  }

  /** What follows once the new release is the current one. */
  function AfterSwap(a: State, hash: Hash, prev: Hash, stop: bool, env: Env, keep: nat, alwaysOn: bool): (State, Response)
  {
    if stop then (Halted(a).(stopped := true, store := Pruned(a.store, keep)), Response(true, Stop, false))
    else
      var b := a.(stopped := false, running := a.running && env.alive);
      if b.running then AfterReload(b, hash, prev, env, keep)
      else AfterStart(b, hash, prev, a.wanted, a.stopped, alwaysOn, env, keep)
  }

  function AfterRollback(a: State, env: Env): (State, Response)
  {
    if Previous(a.store) == NONE then (a, Response(false, Swap, a.running))
    else
      var b := a.(store := RolledBack(a.store), stopped := false, running := a.running && env.alive);
      if b.running then
        if env.reloads then (b, Response(true, Reload, true))
        else if env.aliveAfter then (b, Response(false, Reload, true))
        else var c := Started(b, env.restarts); (c, Response(env.restarts, Reload, c.running))
      else
        var c := Started(b, env.starts); (c, Response(env.starts, Start, c.running))
  }

  function AfterStartCall(a: State, env: Env): (State, bool)
  {
    if Current(a.store) == NONE then (a, false)
    else if a.running then (a, true)
    else (Started(a.(stopped := false), env.starts), env.starts)
  }

  /** A stop by the user; an engine that is always on starts again with its agent. */
  function AfterStopCall(a: State, alwaysOn: bool): State
  {
    Halted(a).(stopped := a.stopped || !alwaysOn)
  }

  /** Start of the agent itself: an engine without a release gets its bootstrap release if it has
      one (a proxy engine that is not the selected one keeps it stopped), and the engine starts
      unless the marker keeps it stopped. */
  function AfterBoot(a: State, bootstrap: Bootstrap, starts: bool): State
  {
    var b :=
      if Current(a.store) == NONE && bootstrap.Shipped? then
        a.(store := Bootstrapped(a.store, bootstrap.files), stopped := if bootstrap.proxy then !bootstrap.selected else a.stopped)
      else a;
    if Current(b.store) == NONE || b.stopped then b else b.(running := starts, wanted := true)
  }

  // ------------------------------------------------------------ the object

  lemma ActivateKeepsDirs(s: Store, hash: Hash)
    ensures Activated(s, hash).dirs == s.dirs
  {
  }

  class EngineAgent {
    const rel: Releases
    const alwaysOn: bool
    var running: bool
    var wanted: bool
    var stopped: bool

    function View(): State
      reads this, rel
    {
      State(rel.View(), running, wanted, stopped)
    }

    constructor (rel: Releases, alwaysOn: bool)
      ensures this.rel == rel && this.alwaysOn == alwaysOn
      ensures View() == State(rel.View(), false, false, false)
    {
      this.rel, this.alwaysOn := rel, alwaysOn;
      running, wanted, stopped := false, false, false;
    }

    method Boot(bootstrap: Bootstrap, starts: bool)
      requires !running && !wanted
      modifies this, rel
      ensures View() == AfterBoot(old(View()), bootstrap, starts)
    {
      if Current(rel.View()) == NONE && bootstrap.Shipped? {
        rel.Bootstrap(bootstrap.files);
        if bootstrap.proxy {
          stopped := !bootstrap.selected;
        }
      }
      if Current(rel.View()) == NONE || stopped {
        return;
      }
      running, wanted := starts, true;
    }

    method StopEngine()
      modifies this`running, this`wanted
      ensures View() == Halted(old(View()))
    {
      running, wanted := false, false;
    }

    method StartAndWait(ok: bool)
      modifies this`running, this`wanted
      ensures View() == Started(old(View()), ok)
    {
      running, wanted := true, true;
      if !ok {
        StopEngine();
      }
    }

    method Apply(req: Request, env: Env) returns (resp: Response)
      requires req.Release() != NONE && Sound(rel.View())
      modifies this, rel
      ensures (View(), resp) == AfterApply(old(View()), req, env, rel.keep, alwaysOn)
    {
      hide Removed, AfterSwap, Written, Activated, Current, Sound;
      ghost var was := rel.View();
      WriteIsSound(was, req.Release(), req.files);
      ActivateKeepsDirs(Written(was, req.Release(), req.files), req.Release());
      WrittenKeeps(was, req.Release(), req.files);
      CurrentIsThere(was);
      var prev := Current(rel.View());
      if req.Bare() {
        stopped := true;
        StopEngine();
        return Response(true, Stop, false);
      }
      if !req.stop && !env.filesOk {
        return Response(false, Validate, running);
      }
      var hash := req.Release();
      if !req.stop && hash == prev && running {
        return Response(true, Reload, true);
      }
      var created := rel.Write(hash, req.files);
      if !req.stop && !env.validates {
        if created {
          rel.Remove(hash);
        }
        return Response(false, Validate, running);
      }
      rel.Activate(hash);
      resp := GoOn(hash, prev, req.stop, env);
    }

    method GoOn(hash: Hash, prev: Hash, stop: bool, env: Env) returns (resp: Response)
      requires prev == NONE || prev in rel.dirs
      modifies this, rel
      ensures (View(), resp) == AfterSwap(old(View()), hash, prev, stop, env, rel.keep, alwaysOn)
    {
      hide Pruned, AfterReload, AfterStart;
      if stop {
        stopped := true;
        StopEngine();
        rel.Prune();
        return Response(true, Stop, false);
      }
      var wasStopped, wasWanted := stopped, wanted;
      stopped := false;
      running := running && env.alive;
      if running {
        resp := ReloadNew(hash, prev, env);
      } else {
        resp := StartNew(hash, prev, wasWanted, wasStopped, env);
      }
    }

    method ReloadNew(hash: Hash, prev: Hash, env: Env) returns (resp: Response)
      requires running && (prev == NONE || prev in rel.dirs)
      modifies this, rel
      ensures (View(), resp) == AfterReload(old(View()), hash, prev, env, rel.keep)
    {
      if !env.reloads {
        running := env.aliveAfter;
        rel.Revert(hash, prev);
        if !running && prev != NONE {
          StartAndWait(env.restarts);
        }
        return Response(false, Reload, running);
      }
      rel.Prune();
      return Response(true, Reload, running);
    }

    method StartNew(hash: Hash, prev: Hash, wasWanted: bool, wasStopped: bool, env: Env) returns (resp: Response)
      requires prev == NONE || prev in rel.dirs
      modifies this, rel
      ensures (View(), resp) == AfterStart(old(View()), hash, prev, wasWanted, wasStopped, alwaysOn, env, rel.keep)
    {
      StartAndWait(env.starts);
      if !env.starts {
        rel.Revert(hash, prev);
        if prev != NONE && (wasWanted || (alwaysOn && !wasStopped)) {
          StartAndWait(env.restarts);
        } else if prev == NONE || !wasWanted {
          StopEngine();
          if !wasWanted && (!alwaysOn || wasStopped) {
            stopped := true;
          }
        }
        return Response(false, Start, running);
      }
      rel.Prune();
      return Response(true, Reload, true);
    }

    method Rollback(env: Env) returns (resp: Response)
      modifies this, rel
      ensures (View(), resp) == AfterRollback(old(View()), env)
    {
      var prev := rel.Rollback();
      if prev == NONE {
        return Response(false, Swap, running);
      }
      stopped := false;
      running := running && env.alive;
      if running {
        if !env.reloads {
          running := env.aliveAfter;
          if !running {
            StartAndWait(env.restarts);
            if !env.restarts {
              return Response(false, Reload, false);
            }
          } else {
            return Response(false, Reload, true);
          }
        }
        return Response(true, Reload, running);
      }
      StartAndWait(env.starts);
      return Response(env.starts, Start, running);
    }

    method StopCall()
      modifies this
      ensures View() == AfterStopCall(old(View()), alwaysOn)
    {
      StopEngine();
      if !alwaysOn {
        stopped := true;
      }
    }

    method StartCall(env: Env) returns (ok: bool)
      modifies this
      ensures (View(), ok) == AfterStartCall(old(View()), env)
    {
      if Current(rel.View()) == NONE {
        return false;
      }
      if running {
        return true;
      }
      stopped := false;
      StartAndWait(env.starts);
      return env.starts;
    }
  }

  // ------------------------------------------------------------ a failed apply changes nothing

  lemma SwapOutcome(a: State, hash: Hash, prev: Hash, stop: bool, env: Env, keep: nat, alwaysOn: bool)
    ensures var (b, resp) := AfterSwap(a, hash, prev, stop, env, keep, alwaysOn);
            resp.running == b.running && (!resp.ok ==> !stop) &&
            b.store == if resp.ok then Pruned(a.store, keep) else Reverted(a.store, hash, prev)
  {
    hide Pruned, Reverted;
  }

  /** What an apply reports and leaves in the store, by its outcome. */
  lemma ApplyOutcome(a: State, req: Request, env: Env, keep: nat, alwaysOn: bool)
    ensures var (b, resp) := AfterApply(a, req, env, keep, alwaysOn);
            var hash := req.Release();
            var s1 := Written(a.store, hash, req.files);
            resp.running == b.running && (resp.ok && !req.Bare() && !req.stop ==> env.filesOk) && b.store ==
              if req.Bare() || (!req.stop && (!env.filesOk || (hash == Current(a.store) && a.running))) then a.store
              else if resp.ok then Pruned(Activated(s1, hash), keep)
              else if env.validates then Reverted(Activated(s1, hash), hash, Current(a.store))
              else if hash !in a.store.dirs then Removed(s1, hash) else s1
  {
    hide Written, Activated, Pruned, Reverted, Removed, Current, AfterSwap;
    var s1 := Written(a.store, req.Release(), req.files);
    SwapOutcome(a.(store := Activated(s1, req.Release())), req.Release(), Current(a.store), req.stop, env, keep, alwaysOn);
  }

  /** The store once a release is swapped to. */
  function Swapped(s: Store, hash: Hash, files: Files): Store
  {
    Activated(Written(s, hash, files), hash)
  }

  lemma SwappedIs(s: Store, hash: Hash, files: Files)
    ensures Swapped(s, hash, files) == Activated(Written(s, hash, files), hash)
  {
    hide Activated, Written;
  }

  lemma SwapIsSound(s: Store, hash: Hash, files: Files)
    requires Sound(s) && hash != NONE
    ensures var b := Swapped(s, hash, files);
            Sound(b) && Current(b) == hash && b.dirs == Written(s, hash, files).dirs && b.history != [] && Last(b.history) == hash
  {
    hide Sound, Activated, Written;
    WriteIsSound(s, hash, files);
    ActivateIsSound(Written(s, hash, files), hash);
    LastIsThere(Swapped(s, hash, files).history, hash);
  }

  lemma LastIsThere(h: seq<Hash>, hash: Hash)
    ensures Last(h) == hash && hash != NONE ==> h != []
  {
  }

  lemma CurrentIsThere(s: Store)
    ensures Current(s) != NONE ==> Current(s) in s.dirs
  {
  }

  /** Going back after a swap leaves what was current before, and all files. */
  lemma SwapBack(s: Store, hash: Hash, files: Files)
    requires Sound(s) && hash != NONE
    ensures var b := Reverted(Swapped(s, hash, files), hash, Current(s));
            Sound(b) && Current(b) == Current(s) && b.dirs == Written(s, hash, files).dirs
  {
    SwapIsSound(s, hash, files);
    CurrentIsThere(s);
    WrittenKeeps(s, hash, files);
    hide Sound, Reverted, Swapped, Current, Written;
    RevertIsSound(Swapped(s, hash, files), hash, Current(s));
  }

  lemma WrittenKeeps(s: Store, hash: Hash, files: Files)
    ensures forall d :: d in s.dirs ==> d in Written(s, hash, files).dirs && Written(s, hash, files).dirs[d] == s.dirs[d]
    ensures forall d :: d in Written(s, hash, files).dirs ==> d in s.dirs || d == hash
  {
  }

  /** A release written and removed again, which the history cannot name, leaves no trace. */
  lemma WriteRemoved(s: Store, hash: Hash, files: Files)
    requires Sound(s) && hash != NONE
    ensures (if hash !in s.dirs then Removed(Written(s, hash, files), hash) else Written(s, hash, files)) == s
  {
    if hash !in s.dirs {
      assert s.dirs[hash := files] - {hash} == s.dirs;
    }
  }

  /** Every apply leaves the store sound, and leaves another release current only by putting
      the requested one there. */
  lemma ApplyIsSound(a: State, req: Request, env: Env, keep: nat, alwaysOn: bool)
    requires Sound(a.store) && req.Release() != NONE
    ensures var (b, resp) := AfterApply(a, req, env, keep, alwaysOn);
            Sound(b.store) &&
            Current(b.store) == if resp.ok && !req.Bare() then req.Release() else Current(a.store)
  {
    hide AfterReload, AfterStart, Sound, Written, Activated, Pruned, Reverted, Removed, Current;
    var hash := req.Release();
    ApplyOutcome(a, req, env, keep, alwaysOn);
    SwapIsSound(a.store, hash, req.files);
    SwapBack(a.store, hash, req.files);
    WriteRemoved(a.store, hash, req.files);
    PruneKeepsCurrent(Swapped(a.store, hash, req.files), keep);
  }

  /** Every apply leaves the current release last in the history, unless there is no history. */
  lemma ApplyIsNeat(a: State, req: Request, env: Env, keep: nat, alwaysOn: bool)
    requires Neat(a.store) && req.Release() != NONE
    ensures var (b, resp) := AfterApply(a, req, env, keep, alwaysOn);
            Neat(b.store) && (resp.ok && !req.Bare() && req.Release() != BOOTSTRAP ==> b.store.history != [])
  {
    hide AfterApply, AfterReload, AfterStart, Neat, Sound, Written, Activated, Pruned, Reverted, Removed, Current;
    var hash := req.Release();
    NeatCurrent(a.store);
    ApplyIsSound(a, req, env, keep, alwaysOn);
    ApplyOutcome(a, req, env, keep, alwaysOn);
    SwapIsNeat(a.store, hash, req.files);
    RevertIsNeat(a.store, hash, req.files);
    WriteRemoved(a.store, hash, req.files);
    PruneIsNeat(Activated(Written(a.store, hash, req.files), hash), keep);
    NeatCurrent(AfterApply(a, req, env, keep, alwaysOn).0.store);
  }

  /** An apply that is refused, for any behaviour of the engine, changes nothing at all before the
      swap; after it, it leaves the current release and every release directory as they were, and
      at most adds the requested one. */
  lemma FailedApplyKeepsReleases(a: State, req: Request, env: Env, keep: nat, alwaysOn: bool)
    requires Sound(a.store) && req.Release() != NONE
    requires !AfterApply(a, req, env, keep, alwaysOn).1.ok
    ensures var b, hash := AfterApply(a, req, env, keep, alwaysOn).0, req.Release();
            if !env.filesOk || !env.validates then b == a
            else
              Current(b.store) == Current(a.store) &&
              b.store.dirs == if hash in a.store.dirs then a.store.dirs else a.store.dirs[hash := req.files]
  {
    hide AfterReload, AfterStart, Sound, Activated, Pruned, Reverted, Removed, Current;
    var hash := req.Release();
    ApplyOutcome(a, req, env, keep, alwaysOn);
    SwapBack(a.store, hash, req.files);
    WriteRemoved(a.store, hash, req.files);
  }

  /** Whether going back after a failed swap restores the history exactly. A bootstrap release
      that was not in the history is in it now; a full history has lost its oldest entry; a failed
      restart of the current release loses one of two equal entries at the end. */
  predicate HistoryRestored(h: seq<Hash>, prev: Hash, hash: Hash)
  {
    if h == [] then prev == NONE else if hash == prev then |h| < 2 || h[|h| - 2] != prev else |h| < 50
  }

  /** The history after a failed apply: it is as before exactly if the apply was refused before
      the swap or HistoryRestored holds. */
  lemma FailedApplyHistory(a: State, req: Request, env: Env, keep: nat, alwaysOn: bool)
    requires Neat(a.store) && req.Release() != NONE && !AfterApply(a, req, env, keep, alwaysOn).1.ok
    ensures AfterApply(a, req, env, keep, alwaysOn).0.store.history == a.store.history <==>
            !env.filesOk || !env.validates || HistoryRestored(a.store.history, Current(a.store), req.Release())
  {
    hide AfterReload, AfterStart, Neat, Sound, Written, Activated, Pruned, Reverted, Removed, HistoryRestored, Current, Last, Swapped;
    NeatCurrent(a.store);
    SwappedIs(a.store, req.Release(), req.files);
    FailedApplyKeepsReleases(a, req, env, keep, alwaysOn);
    if env.filesOk && env.validates {
      ApplyOutcome(a, req, env, keep, alwaysOn);
      RevertedHistory(a.store, req.Release(), req.files);
    }
  }

  lemma RevertedHistory(s: Store, hash: Hash, files: Files)
    requires Neat(s)
    ensures Reverted(Swapped(s, hash, files), hash, Current(s)).history == s.history <==>
            HistoryRestored(s.history, Current(s), hash)
  {
    hide Neat, Sound, Newest, Pushed, BackHistory, Current;
    NeatCurrent(s);
    SoundSize(s);
    if s.history == [] {
      FirstHistory(s, hash, files, Current(s));
      return;
    }
    SwapHistory(s, hash, files, Current(s));
    if hash == Current(s) { RepeatedHistory(s.history, hash); } else { ExtendedHistory(s.history, Current(s), hash); }
  }

  lemma SwapHistory(s: Store, hash: Hash, files: Files, prev: Hash)
    requires prev != NONE
    ensures Reverted(Swapped(s, hash, files), hash, prev).history == BackHistory(Newest(Pushed(s.history, hash)), hash, prev)
  {
    hide Newest, Pushed, Written;
    HistoryStays(s, hash, files);
  }

  lemma FirstHistory(s: Store, hash: Hash, files: Files, prev: Hash)
    requires s.history == []
    ensures Reverted(Swapped(s, hash, files), hash, prev).history == if prev == NONE then [] else [prev]
  {
    hide Written;
    HistoryStays(s, hash, files);
  }

  /** The history after going back to prev. */
  function BackHistory(h: seq<Hash>, failed: Hash, prev: Hash): seq<Hash>
  {
    Pushed(if h != [] && Last(h) == failed then h[..|h| - 1] else h, prev)
  }

  lemma RepeatedHistory(h: seq<Hash>, hash: Hash)
    requires h != [] && Last(h) == hash && |h| <= HISTORY
    ensures Newest(Pushed(h, hash)) == h
    ensures BackHistory(h, hash, hash) == h <==> |h| < 2 || h[|h| - 2] != hash
  {
    var init := h[..|h| - 1];
    assert h == init + [hash];
    assert |h| >= 2 ==> Last(init) == h[|h| - 2];
  }

  lemma ExtendedHistory(h: seq<Hash>, prev: Hash, hash: Hash)
    requires h != [] && Last(h) == prev && |h| <= HISTORY && hash != prev
    ensures BackHistory(Newest(Pushed(h, hash)), hash, prev) == h <==> |h| < HISTORY
  {
    var pushed := h + [hash];
    if |h| < HISTORY {
      assert pushed[..|h|] == h;
    } else {
      assert Newest(pushed) == pushed[1..] && pushed[1..][..|h| - 1] == h[1..];
      assert Last(h[1..]) == prev;
      assert BackHistory(Newest(pushed), hash, prev) == h[1..];
    }
  }

  /** An engine that was running still runs after a failed apply if it survived the failed
      reload, or its release starts again. */
  lemma FailedApplyKeepsServing(a: State, req: Request, env: Env, keep: nat, alwaysOn: bool)
    requires a.running && a.wanted && Current(a.store) != NONE
    requires env.restarts || (env.alive && env.aliveAfter)
    requires !AfterApply(a, req, env, keep, alwaysOn).1.ok
    ensures AfterApply(a, req, env, keep, alwaysOn).0.running
  {
    hide Pruned, Reverted, Activated, Written, Removed;
  }

  /** An engine that is down and stays down: the supervisor does not want it, and the next boot
      of its agent does not start it. */
  predicate Quiet(a: State)
  {
    !a.running && !a.wanted && (a.stopped || Current(a.store) == NONE)
  }

  /** A boot starts exactly an engine with a release whose marker is not set; it touches neither
      release nor marker of an engine that has one, and gives another its bootstrap release, which
      of two proxy engines only the selected one runs. */
  lemma BootStarts(a: State, bootstrap: Bootstrap, starts: bool)
    requires !a.running && !a.wanted
    ensures var b := AfterBoot(a, bootstrap, starts);
            (b.wanted <==> Current(b.store) != NONE && !b.stopped) && b.running == (b.wanted && starts) &&
            (Current(a.store) != NONE || bootstrap.Nothing? ==> b.store == a.store && b.stopped == a.stopped) &&
            (Current(a.store) == NONE && bootstrap.Shipped? ==>
               Current(b.store) == BOOTSTRAP && b.store.history == a.store.history &&
               b.store.dirs == a.store.dirs[BOOTSTRAP := bootstrap.files] &&
               (bootstrap.proxy ==> (b.wanted <==> bootstrap.selected)) &&
               (!bootstrap.proxy ==> b.stopped == a.stopped))
  {
  }

  lemma QuietStaysDown(a: State, bootstrap: Bootstrap, starts: bool)
    requires Quiet(a)
    requires Current(a.store) == NONE && bootstrap.Shipped? ==> bootstrap.proxy && !bootstrap.selected
    ensures Quiet(AfterBoot(a, bootstrap, starts))
  {
  }

  /** A failed apply leaves a quiet engine quiet. */
  lemma FailedApplyStaysQuiet(a: State, req: Request, env: Env, keep: nat, alwaysOn: bool)
    requires Quiet(a) && Sound(a.store) && req.Release() != NONE
    requires !AfterApply(a, req, env, keep, alwaysOn).1.ok
    ensures Quiet(AfterApply(a, req, env, keep, alwaysOn).0)
  {
    ApplyIsSound(a, req, env, keep, alwaysOn);
    hide Pruned, Reverted, Activated, Written, Removed, Current;
  }

  /** A stop always succeeds, and leaves the engine quiet. */
  lemma StopIsQuiet(a: State, req: Request, env: Env, keep: nat, alwaysOn: bool)
    requires req.stop
    ensures AfterApply(a, req, env, keep, alwaysOn).1.ok && Quiet(AfterApply(a, req, env, keep, alwaysOn).0)
  {
    hide Pruned, Reverted, Activated, Written, Removed, Current;
  }

  /** An apply that is to run its release and succeeds runs it. */
  lemma ApplyRuns(a: State, req: Request, env: Env, keep: nat, alwaysOn: bool)
    requires !req.stop && AfterApply(a, req, env, keep, alwaysOn).1.ok
    ensures AfterApply(a, req, env, keep, alwaysOn).0.running
  {
    hide Pruned, Reverted, Activated, Written, Removed, Current;
  }

  /** Exactly when an apply succeeds: a stop always does, and so does a running release that is
      asked for again; otherwise the engine validates the files and then reloads them if it is
      still running, or comes up with them. */
  predicate Succeeds(a: State, req: Request, env: Env)
  {
    req.stop ||
    (env.filesOk &&
      ((req.Release() == Current(a.store) && a.running) ||
       (env.validates && if a.running && env.alive then env.reloads else env.starts)))
  }

  lemma ApplySucceeds(a: State, req: Request, env: Env, keep: nat, alwaysOn: bool)
    ensures AfterApply(a, req, env, keep, alwaysOn).1.ok == Succeeds(a, req, env)
  {
    hide Pruned, Reverted, Activated, Written, Removed, Current;
  }

  /** Exactly when the engine runs after an apply that failed: nothing happened before the swap;
      then it survived the reload, or its release came up again. */
  predicate RunsAfterFailure(a: State, env: Env, alwaysOn: bool)
  {
    if !env.filesOk || !env.validates then a.running
    else if a.running && env.alive then env.aliveAfter || (Current(a.store) != NONE && env.restarts)
    else Current(a.store) != NONE && (a.wanted || (alwaysOn && !a.stopped)) && env.restarts
  }

  lemma ApplyFails(a: State, req: Request, env: Env, keep: nat, alwaysOn: bool)
    requires !Succeeds(a, req, env)
    ensures AfterApply(a, req, env, keep, alwaysOn).0.running == RunsAfterFailure(a, env, alwaysOn)
  {
    hide Pruned, Reverted, Activated, Written, Removed, Current;
  }

  /** The engine accepts the files and comes up with them. */
  predicate Accepts(env: Env)
  {
    env.filesOk && env.validates && env.starts
  }

  /** An apply to an engine that is down succeeds exactly if the engine accepts the release; a
      refused one leaves it down. */
  lemma QuietApply(a: State, req: Request, env: Env, keep: nat, alwaysOn: bool)
    requires Quiet(a) && Sound(a.store) && req.Release() != NONE && !req.stop
    ensures var (b, resp) := AfterApply(a, req, env, keep, alwaysOn); resp.ok == b.running == Accepts(env)
  {
    if !AfterApply(a, req, env, keep, alwaysOn).1.ok { FailedApplyStaysQuiet(a, req, env, keep, alwaysOn); }
    hide Pruned, Reverted, Activated, Written, Removed, Current;
  }

  // ------------------------------------------------------------ undoing a successful apply

  /** There is a release to go back to after a successful apply: after another release the
      current one, if the history has it; after the same one, or a bare stop, the one before. */
  predicate HasPrevious(s: Store, req: Request)
  {
    if ChangesRelease(s, req) then s.history != [] else Previous(s) != NONE
  }

  predicate ChangesRelease(s: Store, req: Request)
  {
    !req.Bare() && req.Release() != Current(s)
  }

  lemma ApplyIsUndoable(a: State, req: Request, env: Env, keep: nat, alwaysOn: bool)
    requires Neat(a.store) && req.Release() != NONE && 1 <= keep < HISTORY && Succeeds(a, req, env)
    ensures var s, s' := a.store, AfterApply(a, req, env, keep, alwaysOn).0.store;
            (Previous(s') != NONE <==> HasPrevious(s, req)) &&
            (HasPrevious(s, req) && ChangesRelease(s, req) ==> Previous(s') == Current(s))
  {
    hide AfterApply, Previous, Committed, Neat, Sound, Activated, Written, Pruned, Reverted, Removed, Current, Succeeds;
    var s, hash := a.store, req.Release();
    ApplySucceeds(a, req, env, keep, alwaysOn);
    ApplyOutcome(a, req, env, keep, alwaysOn);
    NeatCurrent(s);
    CommittedIsSwap(s, hash, req.files, keep);
    if hash == Current(s) {
      CommittedAgain(s, req.files, keep);
    } else if s.history != [] {
      CommitUndone(s, hash, req.files, keep);
    } else {
      FirstCommit(s, hash, req.files, keep);
    }
  }

  lemma CommittedIsSwap(s: Store, hash: Hash, files: Files, keep: nat)
    ensures Committed(s, hash, files, keep) == Pruned(Activated(Written(s, hash, files), hash), keep)
  {
    hide Pruned, Activated, Written;
  }

  /** Applying the current release again leaves the previous one as it is. */
  lemma CommittedAgain(s: Store, files: Files, keep: nat)
    requires Neat(s) && Current(s) != NONE && keep >= 1
    ensures Previous(Committed(s, Current(s), files, keep)) == Previous(s)
  {
    hide Sound, Previous, Current;
    NeatCurrent(s);
    CurrentIsThere(s);
    var b := Activated(Written(s, Current(s), files), Current(s));
    SwapIsNeat(s, Current(s), files);
    PruneKeepsPrevious(b, keep);
    PreviousIsBefore(s);
    PreviousIsBefore(b);
    NeatCurrent(b);
    if s.history == [] { assert b.history == [Current(s)]; } else { RepeatedHistory(s.history, Current(s)); }
    SoundSize(s);
  }

  lemma SoundSize(s: Store)
    ensures Sound(s) ==> |s.history| <= HISTORY
  {
  }

  /** The first release in the history has no previous one. */
  lemma FirstCommit(s: Store, hash: Hash, files: Files, keep: nat)
    requires Sound(s) && s.history == [] && hash != NONE && keep >= 1
    ensures Previous(Committed(s, hash, files, keep)) == NONE
  {
    hide Sound, Previous, Current;
    var b := Activated(Written(s, hash, files), hash);
    SwapIsNeat(s, hash, files);
    PruneKeepsPrevious(b, keep);
    PreviousIsBefore(b);
    NeatCurrent(b);
    assert b.history == [hash];
  }

  /** A rollback after a successful apply restores the release that was current before if and only
      if the apply brought another release and the history is not empty, or it did not and there
      is no older one. */
  lemma RollbackUndoesApply(a: State, req: Request, env: Env, env': Env, keep: nat, alwaysOn: bool)
    requires Neat(a.store) && req.Release() != NONE && 1 <= keep < HISTORY && Succeeds(a, req, env)
    ensures var b := AfterApply(a, req, env, keep, alwaysOn).0;
            Current(AfterRollback(b, env').0.store) == Current(a.store) <==>
            if ChangesRelease(a.store, req) then a.store.history != [] else Previous(a.store) == NONE
  {
    hide AfterApply, AfterRollback, Previous, RolledBack, Neat, Sound, Current, Succeeds;
    var b := AfterApply(a, req, env, keep, alwaysOn).0;
    NeatCurrent(a.store);
    ApplySucceeds(a, req, env, keep, alwaysOn);
    ApplyIsSound(a, req, env, keep, alwaysOn);
    ApplyIsUndoable(a, req, env, keep, alwaysOn);
    RollbackStore(b, env');
    PreviousIsOther(b.store);
    RolledBackStays(b.store);
  }

  /** A release that an apply and a rollback leave in place has its files as before. */
  lemma RollbackKeepsFiles(a: State, req: Request, env: Env, env': Env, keep: nat, alwaysOn: bool, d: Hash)
    requires Sound(a.store) && req.Release() != NONE && d in a.store.dirs
    ensures var s' := AfterRollback(AfterApply(a, req, env, keep, alwaysOn).0, env').0.store;
            d in s'.dirs ==> s'.dirs[d] == a.store.dirs[d]
  {
    hide AfterApply, AfterRollback, Sound, Current, Activated, Reverted, Pruned, Previous, PoppedTo;
    var s1 := Activated(Written(a.store, req.Release(), req.files), req.Release());
    ApplyOutcome(a, req, env, keep, alwaysOn);
    RollbackStore(AfterApply(a, req, env, keep, alwaysOn).0, env');
    WriteRemoved(a.store, req.Release(), req.files);
    SwapIsSound(a.store, req.Release(), req.files);
    SwapBack(a.store, req.Release(), req.files);
    PruneKeepsCurrent(s1, keep);
  }

  /** Exactly when a rollback succeeds. */
  predicate RollsBack(a: State, env: Env)
  {
    Previous(a.store) != NONE &&
    if a.running && env.alive then env.reloads || (!env.aliveAfter && env.restarts) else env.starts
  }

  /** Exactly when the engine runs after it, whatever it did before: a rollback without a release
      to go to changes nothing, and any other reloads or starts the engine, also one that was
      stopped. */
  predicate RunsAfterRollback(a: State, env: Env)
  {
    if Previous(a.store) == NONE then a.running
    else if a.running && env.alive then env.reloads || env.aliveAfter || env.restarts
    else env.starts
  }

  lemma RollbackRuns(a: State, env: Env)
    ensures var (b, resp) := AfterRollback(a, env);
            resp.ok == RollsBack(a, env) && resp.running == b.running == RunsAfterRollback(a, env) &&
            (if Previous(a.store) == NONE then b == a else b.store == RolledBack(a.store) && !b.stopped)
  {
    hide Previous, PoppedTo;
  }

  lemma RolledBackStays(s: Store)
    ensures Previous(s) == NONE ==> RolledBack(s) == s
  {
    hide Previous;
  }

  /** A start runs an engine that is down, or leaves it down, on the release it has. It succeeds
      on an engine that runs and fails on one without a release, and does nothing to either. */
  lemma StartRuns(a: State, env: Env)
    ensures var (b, ok) := AfterStartCall(a, env);
            b.store == a.store && (ok ==> b.running) && (Current(a.store) == NONE ==> b == a && !ok) &&
            (Current(a.store) != NONE && a.running ==> b == a && ok) &&
            (Current(a.store) != NONE && !a.running ==> b.running == b.wanted == ok == env.starts && !b.stopped)
  {
    hide Current;
  }

  lemma RollbackStore(a: State, env: Env)
    ensures AfterRollback(a, env).0.store == RolledBack(a.store)
  {
    hide Previous, PoppedTo;
  }

  lemma CommitUndone(s: Store, hash: Hash, files: Files, keep: nat)
    requires Neat(s) && s.history != [] && hash != NONE && hash != Current(s) && 1 <= keep < HISTORY
    ensures Previous(Committed(s, hash, files, keep)) == Current(s)
  {
    hide Committed, Previous, RolledBack;
    NeatCurrent(s);
    var t, base := [Current(s)], s.history[..|s.history| - 1];
    assert s.history == base + t;
    base := CommitExtends(s, base, t, hash, files, keep);
    RollbackShortens(Committed(s, hash, files, keep), base, t + [hash]);
    assert (t + [hash])[..1] == t;
  }

  lemma RollbackIsNeat(a: State, env: Env)
    requires Neat(a.store)
    ensures Neat(AfterRollback(a, env).0.store)
  {
    hide AfterRollback, RolledBack;
    RollbackStore(a, env);
    RolledBackIsNeat(a.store);
  }

  // ------------------------------------------------------------ every operation

  /** Only a wanted engine runs, and the supervisor wants none that the marker keeps stopped. */
  predicate Awake(a: State)
  {
    (a.running ==> a.wanted) && (a.wanted ==> !a.stopped)
  }

  /** The store is sound, its history ends in the current release (only the bootstrap release may
      be current without a history), and the engine and its marker agree. */
  ghost predicate Good(a: State)
  {
    Neat(a.store) && Awake(a)
  }

  lemma ApplyIsAwake(a: State, req: Request, env: Env, keep: nat, alwaysOn: bool)
    requires Awake(a)
    ensures Awake(AfterApply(a, req, env, keep, alwaysOn).0)
  {
    hide Written, Activated, Pruned, Reverted, Removed, Current;
  }

  lemma RollbackIsAwake(a: State, env: Env)
    requires Awake(a)
    ensures Awake(AfterRollback(a, env).0)
  {
    hide Previous, RolledBack;
  }

  lemma StartIsAwake(a: State, env: Env)
    requires Awake(a)
    ensures Awake(AfterStartCall(a, env).0)
  {
    hide Current;
  }

  lemma ApplyIsGood(a: State, req: Request, env: Env, keep: nat, alwaysOn: bool)
    requires Good(a) && req.Release() != NONE
    ensures Good(AfterApply(a, req, env, keep, alwaysOn).0)
  {
    hide AfterApply, Neat, Awake;
    ApplyIsNeat(a, req, env, keep, alwaysOn);
    ApplyIsAwake(a, req, env, keep, alwaysOn);
  }

  lemma RollbackIsGood(a: State, env: Env)
    requires Good(a)
    ensures Good(AfterRollback(a, env).0)
  {
    hide AfterRollback, Neat, Awake;
    RollbackIsNeat(a, env);
    RollbackIsAwake(a, env);
  }

  lemma StartIsGood(a: State, env: Env)
    requires Good(a)
    ensures Good(AfterStartCall(a, env).0)
  {
    hide AfterStartCall, Neat, Awake;
    StartRuns(a, env);
    StartIsAwake(a, env);
  }

  /** A user's stop takes the engine down on the release it has. The next boot of its agent starts
      it again exactly if it is one that always runs and its marker was not set already. */
  lemma StopSticks(a: State, alwaysOn: bool, bootstrap: Bootstrap, starts: bool)
    requires Current(a.store) != NONE
    ensures var b := AfterStopCall(a, alwaysOn);
            b.store == a.store && !b.running && !b.wanted &&
            AfterBoot(b, bootstrap, starts).wanted == (alwaysOn && !a.stopped) &&
            (Quiet(b) <==> !alwaysOn || a.stopped)
  {
  }

  /** The marker after an apply: a stop sets it, a success that is no stop leaves it off, and a
      failure leaves it as it was, except that an engine nobody wanted, and that is not always on,
      is stopped for good when it does not come up. */
  lemma MarkerAfterApply(a: State, req: Request, env: Env, keep: nat, alwaysOn: bool)
    requires Awake(a)
    ensures var (b, resp) := AfterApply(a, req, env, keep, alwaysOn);
            b.stopped ==
              if req.stop then true
              else !resp.ok && (a.stopped || (env.filesOk && env.validates && !a.wanted && !alwaysOn))
  {
    hide Written, Activated, Pruned, Reverted, Removed, Current;
  }

  /** After a successful apply that is no stop, the requested release is there with its files, the
      engine runs it, and the next boot of its agent starts it on it. */
  lemma AppliedBoots(a: State, req: Request, env: Env, keep: nat, alwaysOn: bool, bootstrap: Bootstrap, starts: bool)
    requires Good(a) && req.Release() != NONE && !req.stop && Succeeds(a, req, env)
    ensures var b, hash := AfterApply(a, req, env, keep, alwaysOn).0, req.Release();
            var c := AfterBoot(Halted(b), bootstrap, starts);
            b.running && b.wanted && !b.stopped && Current(b.store) == hash &&
            b.store.dirs[hash] == (if hash in a.store.dirs then a.store.dirs[hash] else req.files) &&
            c.wanted && c.running == starts && c.store == b.store
  {
    hide AfterApply, Neat, Succeeds, Sound, Activated, Pruned, Reverted, Removed;
    var b, hash := AfterApply(a, req, env, keep, alwaysOn).0, req.Release();
    var s1 := Activated(Written(a.store, hash, req.files), hash);
    NeatCurrent(a.store);
    ApplySucceeds(a, req, env, keep, alwaysOn);
    ApplyRuns(a, req, env, keep, alwaysOn);
    ApplyIsAwake(a, req, env, keep, alwaysOn);
    ApplyIsSound(a, req, env, keep, alwaysOn);
    ApplyOutcome(a, req, env, keep, alwaysOn);
    SwapIsSound(a.store, hash, req.files);
    PruneKeepsCurrent(s1, keep);
  }

  /** The stage an answer names: what was asked for, or where it failed: before anything was
      swapped (validate), reloading an engine that still ran, or starting it. */
  lemma ApplyStages(a: State, req: Request, env: Env, keep: nat, alwaysOn: bool)
    ensures var (b, resp) := AfterApply(a, req, env, keep, alwaysOn);
            (resp.stage == Stop <==> req.stop) && (resp.ok && !req.stop ==> resp.stage == Reload) &&
            (!resp.ok ==>
               resp.stage == if !env.filesOk || !env.validates then Validate else if a.running && env.alive then Reload else Start)
  {
    hide Written, Activated, Pruned, Reverted, Removed, Current;
  }
}
