/**
  Applying a version to the engines (internal/apply/service.go): the load balancer is swapped
  first, then the proxy engine, then the tunnel. Changing to another engine stops the old one
  before the new one starts, and a failure undoes what was done. All agents answer; what the
  engines make of each call, and how the checks end, is decided by a world.
 */
module EngineSwitch {
  import opened Common
  import opened Releases
  import opened Agent

  datatype Engine = Nginx | Edge | HAProxy | Balancer | Tunnel

  /** A version: the engines it is for, their releases, and whether the load balancer and the
      tunnel have anything to run. */
  datatype Version = Version(
    engine: Engine, proxy: Release, lbEngine: Engine, lb: Release, lbRun: bool, tunnel: Release, tunnelRun: bool)

  /** What an apply changed on the proxy engines; from names the previous engine of a switch. */
  datatype ProxySwap = ProxySwap(from: Option<Engine>, oldStop: bool, started: bool, swapped: bool)

  /** What it changed on the load balancers, and for a switch the release the previous one had
      and whether it ran. */
  datatype LBSwap = LBSwap(
    changed: bool, from: Option<Engine>, fromFiles: Option<Release>, fromRun: bool, oldStop: bool, started: bool)

  /** What the engines make of the calls that undo an apply. */
  datatype UndoWorld = UndoWorld(
    proxyStop: Env, proxyStart: Env, proxyRollback: Env, lbStop: Env, lbApply: Env, lbRollback: Env, tunnelRollback: Env)

  /** What they make of an apply: whether rendering and validation pass, the calls in order, and
      whether the health check passes. */
  datatype World = World(
    passes: bool, lbStop: Env, lbApply: Env, proxyStop: Env, proxyApply: Env, tunnelApply: Env, healthy: bool, undo: UndoWorld)

  /** Where undoing reported an error. */
  datatype Problems = Problems(proxy: bool, lb: bool, tunnel: bool)

  /** Refused: nothing was sent to the engines. */
  datatype Outcome = Refused | Live | Undone(problems: Problems)

  const KEEP: nat := 10

  /** The digest of no files. */
  const EMPTY: Hash := "e3b0c44298fc1c149afbf4c8"

  type Agents = map<Engine, State>

  predicate Proxy(e: Engine)
  {
    e == Nginx || e == Edge
  }

  predicate LoadBalancer(e: Engine)
  {
    e == HAProxy || e == Balancer
  }

  /** The engine that binds the same ports. */
  function Rival(e: Engine): Engine
  {
    match e
    case Nginx => Edge
    case Edge => Nginx
    case HAProxy => Balancer
    case Balancer => HAProxy
    case Tunnel => Tunnel
  }

  ghost predicate Total(m: Agents)
  {
    forall e: Engine :: e in m
  }

  /** The engine's ports are free: its rival is down and stays down. */
  ghost predicate Free(m: Agents, e: Engine)
    requires Total(m)
  {
    e == Tunnel || Quiet(m[Rival(e)])
  }

  /** Of two engines that bind the same ports, one is down and stays down. */
  ghost predicate Exclusive(m: Agents)
    requires Total(m)
  {
    (Quiet(m[Nginx]) || Quiet(m[Edge])) && (Quiet(m[HAProxy]) || Quiet(m[Balancer]))
  }

  predicate Wellformed(v: Version)
  {
    Proxy(v.engine) && LoadBalancer(v.lbEngine) && ValidHash(v.proxy.hash) && ValidHash(v.tunnel.hash)
  }

  /** A live version from before load balancer releases has no hash for one. */
  predicate LiveIsWellformed(live: Option<Version>)
  {
    live.Some? ==> Wellformed(live.value) && (live.value.lb.hash == NONE || ValidHash(live.value.lb.hash))
  }

  function Req(r: Release, stop: bool): Request
  {
    Request(r.files, r.hash, r.hash, stop)
  }

  /** Stop with a release if there is one. */
  function StopReq(r: Option<Release>): Request
  {
    if r.Some? then Req(r.value, true) else Request(map[], NONE, EMPTY, true)
  }

  function LiveEngine(live: Option<Version>): Engine
  {
    if live.Some? then live.value.engine else Nginx
  }

  function LiveLB(live: Option<Version>): Engine
  {
    if live.Some? then live.value.lbEngine else HAProxy
  }

  function LiveLBRelease(live: Option<Version>): Option<Release>
  {
    if live.Some? && live.value.lb.hash != NONE then Some(live.value.lb) else None
  }

  /** The live load balancer has something to run, and the user did not stop it. */
  function LBRan(live: Option<Version>, userStopped: set<Engine>): bool
  {
    live.Some? && live.value.lbRun && live.value.lbEngine !in userStopped
  }

  /** The engine has a release and runs it, or not, as it is to. */
  predicate Has(a: State, r: Release, run: bool)
  {
    Current(a.store) == r.hash && a.running == run
  }

  /** A tunnel that never had a release and is not to run is left alone. */
  predicate TunnelDiffers(v: Version, a: State)
  {
    (Current(a.store) != v.tunnel.hash && (v.tunnelRun || Current(a.store) != NONE)) || a.running != v.tunnelRun
  }

  /** The most an engine can be up during a call that may start it. */
  function Busy(a: State): State
  {
    a.(running := true, wanted := true, stopped := false)
  }

  /** What a caller of apply can rely on, whatever the engine does. */
  lemma ApplySummary(a: State, req: Request, env: Env, alwaysOn: bool)
    requires Good(a) && req.Release() != NONE
    ensures var (b, resp) := AfterApply(a, req, env, KEEP, alwaysOn); Good(b) && Answered(req, env, a, b, resp)
  {
    hide AfterApply, Quiet, Good, Neat, Current, Accepts, Succeeds;
    var (b, r) := AfterApply(a, req, env, KEEP, alwaysOn);
    GoodIsNeat(a);
    NeatCurrent(a.store);
    ApplyIsSound(a, req, env, KEEP, alwaysOn);
    ApplyIsGood(a, req, env, KEEP, alwaysOn);
    ApplySucceeds(a, req, env, KEEP, alwaysOn);
    if req.stop {
      StopIsQuiet(a, req, env, KEEP, alwaysOn);
      QuietIsDown(b);
    } else {
      if r.ok { ApplyRuns(a, req, env, KEEP, alwaysOn); }
      if Quiet(a) { QuietApply(a, req, env, KEEP, alwaysOn); }
    }
    if !r.ok && Quiet(a) { FailedApplyStaysQuiet(a, req, env, KEEP, alwaysOn); }
  }

  lemma GoodIsNeat(a: State)
    ensures Good(a) ==> Neat(a.store)
  {
  }

  /** What ApplySummary says of one call. */
  ghost predicate Answered(req: Request, env: Env, a: State, b: State, resp: Response)
  {
    && resp.ok == Succeeds(a, req, env)
    && Current(b.store) == (if resp.ok && !req.Bare() then req.Release() else Current(a.store))
    && (req.stop ==> resp.ok && Quiet(b) && !b.running)
    && (!req.stop && resp.ok ==> b.running)
    && (!req.stop && Quiet(a) ==> resp.ok == b.running == Accepts(env))
    && (!resp.ok && Quiet(a) ==> Quiet(b))
  }

  lemma QuietIsDown(a: State)
    ensures Quiet(a) ==> !a.running && !a.wanted
  {
  }

  /** A request with a digest names the release; it is never bare. */
  lemma ReqRelease(r: Release, stop: bool)
    requires ValidHash(r.hash)
    ensures Req(r, stop).Release() == r.hash && r.hash != NONE && !Req(r, stop).Bare() && Req(r, stop).stop == stop
  {
  }

  /** A stop without a release only stops. */
  lemma BareStop(a: State, env: Env, alwaysOn: bool)
    ensures AfterApply(a, StopReq(None), env, KEEP, alwaysOn).0 == Stopped(a)
  {
  }

  function Stopped(a: State): State
  {
    Halted(a).(stopped := true)
  }

  lemma StopRelease(r: Option<Release>)
    requires r.Some? ==> ValidHash(r.value.hash)
    ensures StopReq(r).Release() != NONE && StopReq(r).stop && (r.Some? ==> StopReq(r) == Req(r.value, true))
    ensures if r.Some? then !StopReq(r).Bare() && StopReq(r).Release() == r.value.hash else StopReq(r).Bare()
  {
    assert ValidHash(EMPTY);
  }

  /** A start of an engine that is down succeeds exactly if there is a release that comes up. */
  lemma StartSummary(a: State, env: Env)
    requires Quiet(a)
    ensures var (b, ok) := AfterStartCall(a, env);
            b.store == a.store && ok == b.running == (Current(a.store) != NONE && env.starts)
  {
    StartRuns(a, env);
    hide Current, AfterStartCall;
  }

  /** The states a call to e adds to a trace. */
  ghost function Traced(trace: seq<Agents>, before: Agents, e: Engine, starts: bool, after: Agents): seq<Agents>
    requires e in before
  {
    trace + (if starts then [before[e := Busy(before[e])]] else []) + [after]
  }

  /** A rollback call, and whether it failed. */
  ghost predicate RolledBackBy(before: State, after: State, env: Env, problem: bool)
  {
    var (b, resp) := AfterRollback(before, env);
    after == b && problem == !resp.ok
  }

  ghost predicate AllGood(m: Agents)
    requires Total(m)
  {
    forall e: Engine :: Good(m[e])
  }

  /** In every state of a trace one of two rival engines is down and stays down. */
  ghost predicate Safe(trace: seq<Agents>)
  {
    forall m :: m in trace ==> Total(m) && Exclusive(m)
  }

  /** A call to e keeps all that, if e's ports are free or the call leaves e down. */
  lemma CallIsSafe(trace: seq<Agents>, m: Agents, e: Engine, starts: bool, b: State)
    requires Total(m) && Exclusive(m) && AllGood(m) && Safe(trace) && Good(b)
    requires Free(m, e) || (!starts && Quiet(b))
    ensures var m' := m[e := b];
            Total(m') && Exclusive(m') && AllGood(m') && Safe(Traced(trace, m, e, starts, m')) &&
            trace <= Traced(trace, m, e, starts, m')
  {
    hide Quiet, Good, Neat;
    assert Exclusive(m[e := b]);
    if starts { assert Exclusive(m[e := Busy(m[e])]); }
  }

  /** While a call may start an engine, in a state that is safe, the rival is down for good. */
  lemma StartNeedsPorts(trace: seq<Agents>, m: Agents, e: Engine, m': Agents)
    requires Total(m) && Safe(Traced(trace, m, e, true, m')) && e != Tunnel
    ensures Quiet(m[Rival(e)])
  {
    hide Current;
    var s := m[e := Busy(m[e])];
    assert Traced(trace, m, e, true, m')[|trace|] == s;
    assert Total(s) && Exclusive(s);
  }

  lemma GoodAt(m: Agents, e: Engine)
    requires Total(m) && AllGood(m)
    ensures Good(m[e]) && Neat(m[e].store)
  {
  }

  /** What undoing a proxy swap does to the engine of the failed version (new0 before, new1
      after) and the other one (old0, old1): after a switch the first is down, and the other keeps
      its release and runs exactly if there is one that comes up; without one, a swapped engine is
      rolled back. */
  ghost predicate ProxyUndone(sw: ProxySwap, w: UndoWorld, new0: State, new1: State, old0: State, old1: State, problem: bool)
  {
    if sw.from.Some? then
      && Quiet(new1)
      && (if sw.oldStop then
            && old1.store == old0.store && problem == !old1.running
            && old1.running == (Current(old0.store) != NONE && w.proxyStart.starts)
          else old1 == old0 && !problem)
    else old1 == old0 && if sw.swapped then RolledBackBy(new0, new1, w.proxyRollback, problem) else new1 == new0 && !problem
  }

  /** The same for a load balancer swap; here the other engine gets its release again, and runs
      exactly if it ran before and accepts it. */
  ghost predicate LBUndone(sw: LBSwap, w: UndoWorld, new0: State, new1: State, old0: State, old1: State, problem: bool)
  {
    if sw.from.Some? then
      && Quiet(new1)
      && (if sw.oldStop && sw.fromFiles.Some? then
            && (Current(old0.store) == sw.fromFiles.value.hash ==> Current(old1.store) == sw.fromFiles.value.hash)
            && old1.running == (sw.fromRun && Accepts(w.lbApply)) && problem == (sw.fromRun && !old1.running)
          else old1 == old0 && !problem)
    else old1 == old0 && if sw.changed then RolledBackBy(new0, new1, w.lbRollback, problem) else new1 == new0 && !problem
  }

  ghost predicate TunnelUndone(changed: bool, w: UndoWorld, before: State, after: State, problem: bool)
  {
    if changed then RolledBackBy(before, after, w.tunnelRollback, problem) else after == before && !problem
  }

  /** What a swap has left behind when it is to be undone, on its engine (new0) and the other. */
  ghost predicate ProxySwapped(sw: ProxySwap, v: Version, new0: State, old0: State)
  {
    if sw.from.Some? then sw.from.value == Rival(v.engine) && Quiet(old0) && (sw.started || Quiet(new0))
    else sw.swapped ==> Quiet(old0)
  }

  ghost predicate LBSwapped(sw: LBSwap, v: Version, new0: State, old0: State)
  {
    if sw.from.Some? then
      && sw.from.value == Rival(v.lbEngine) && Quiet(old0) && (sw.started || Quiet(new0))
      && (sw.fromFiles.Some? ==> ValidHash(sw.fromFiles.value.hash))
    else sw.changed ==> Quiet(old0)
  }

  /** What an apply to one engine has done, if it was called at all. */
  ghost predicate PartDone(req: Request, env: Env, alwaysOn: bool, called: bool, changed: bool, before: State, after: State)
  {
    if called then
      var (b, resp) := AfterApply(before, req, env, KEEP, alwaysOn);
      after == b && changed == resp.ok
    else after == before && !changed
  }

  /** What the proxy swap of a version has done (new0, new1: its engine, old0, old1: the other). */
  ghost predicate ProxyDone(live: Option<Version>, v: Version, w: World, sw: ProxySwap, new0: State, new1: State, old0: State,
                            old1: State)
  {
    && Quiet(old1)
    && (if LiveEngine(live) != v.engine then
          && sw.from == Some(LiveEngine(live)) && sw.oldStop && sw.started
          && Current(old1.store) == (if live.Some? then live.value.proxy.hash else Current(old0.store))
        else
          sw.from == None && old1 == old0
          && PartDone(Req(v.proxy, false), w.proxyApply, true, true, sw.swapped, new0, new1))
  }

  /** The same for the load balancer swap. */
  ghost predicate LBDone(live: Option<Version>, userStopped: set<Engine>, v: Version, w: World, sw: LBSwap, new0: State,
                         new1: State, old0: State, old1: State)
  {
    && Quiet(old1)
    && (if LiveLB(live) != v.lbEngine then
          && sw.from == Some(LiveLB(live)) && sw.fromFiles == LiveLBRelease(live) && sw.fromRun == LBRan(live, userStopped)
          && sw.oldStop && sw.started
          && (if sw.fromFiles.Some? then Current(old1.store) == sw.fromFiles.value.hash else old1 == Stopped(old0))
        else
          sw.from == None && old1 == old0
          && PartDone(Req(v.lb, !v.lbRun), w.lbApply, false, !Has(new0, v.lb, v.lbRun), sw.changed, new0, new1))
  }

  /** An engine that stays: an apply, and if it succeeded the rollback that undoes it. The state
      afterwards, and whether undoing reported a problem. */
  function Retracted(a: State, req: Request, apply: Env, undo: Env, alwaysOn: bool): (State, bool)
  {
    var (b, resp) := AfterApply(a, req, apply, KEEP, alwaysOn);
    if !resp.ok then (b, false) else var (c, back) := AfterRollback(b, undo); (c, !back.ok)
  }

  /** The same, if the apply was called at all. */
  ghost predicate RetractedIf(called: bool, req: Request, apply: Env, undo: Env, alwaysOn: bool, before: State, after: State,
                              problem: bool)
  {
    (after, problem) == if called then Retracted(before, req, apply, undo, alwaysOn) else (before, false)
  }

  /** Whether it runs then. */
  predicate RunsRetracted(a: State, req: Request, apply: Env, undo: Env, alwaysOn: bool)
  {
    if !Succeeds(a, req, apply) then RunsAfterFailure(a, apply, alwaysOn)
    else if !HasPrevious(a.store, req) then !req.stop
    else if !req.stop && undo.alive then undo.reloads || undo.aliveAfter || undo.restarts
    else undo.starts
  }

  /** Whether undoing reports a problem: there is nothing to go back to, or the engine does not
      come up with it. */
  predicate UndoFails(a: State, req: Request, apply: Env, undo: Env)
  {
    Succeeds(a, req, apply) &&
    (HasPrevious(a.store, req) ==>
       !(if !req.stop && undo.alive then undo.reloads || (!undo.aliveAfter && undo.restarts) else undo.starts))
  }

  /** Whether it has its release again: the apply was refused, or it brought another release and
      the history is not empty, or it brought the same one and there is no older one. */
  predicate ReleaseIsBack(a: State, req: Request, apply: Env)
  {
    Succeeds(a, req, apply) ==>
      if ChangesRelease(a.store, req) then a.store.history != [] else Previous(a.store) == NONE
  }

  /** Each part of an apply succeeds exactly under these conditions. The load balancer comes first. */
  ghost predicate LBGoes(live: Option<Version>, v: Version, w: World, m: Agents)
    requires Total(m)
  {
    !LBCalled(live, v, m[v.lbEngine]) || Succeeds(m[v.lbEngine], Req(v.lb, !v.lbRun), w.lbApply)
  }

  predicate LBCalled(live: Option<Version>, v: Version, a: State)
  {
    LiveLB(live) != v.lbEngine || !Has(a, v.lb, v.lbRun)
  }

  ghost predicate ProxyGoes(v: Version, w: World, m: Agents)
    requires Total(m)
  {
    Succeeds(m[v.engine], Req(v.proxy, false), w.proxyApply)
  }

  ghost predicate TunnelGoes(v: Version, w: World, m: Agents)
    requires Total(m)
  {
    TunnelDiffers(v, m[Tunnel]) ==> Succeeds(m[Tunnel], Req(v.tunnel, !v.tunnelRun), w.tunnelApply)
  }

  /** No part of the apply fails. */
  ghost predicate Goes(live: Option<Version>, v: Version, w: World, m: Agents)
    requires Total(m)
  {
    LBGoes(live, v, w, m) && ProxyGoes(v, w, m) && TunnelGoes(v, w, m)
  }

  /** An apply reaches the tunnel, and has something to do there. */
  ghost predicate TunnelCalled(live: Option<Version>, v: Version, w: World, m: Agents)
    requires Total(m)
  {
    LBGoes(live, v, w, m) && ProxyGoes(v, w, m) && TunnelDiffers(v, m[Tunnel])
  }

  /** The proxy engines after a failed version, compared with before it. Unless the load balancer
      failed already, a switch leaves the new engine down and the old one on its live release,
      which runs exactly if it comes up again. */
  ghost predicate ProxyRestored(live: Option<Version>, v: Version, w: World, reached: bool, new0: State, new1: State,
                                old0: State, old1: State, problem: bool)
  {
    if LiveEngine(live) != v.engine then
      if !reached then new1 == new0 && old1 == old0 && !problem
      else
        && Quiet(new1) && Current(old1.store) == LiveProxyHash(live, old0) && problem == !old1.running
        && old1.running == (LiveProxyHash(live, old0) != NONE && w.undo.proxyStart.starts)
    else
      old1 == old0
      && RetractedIf(reached, Req(v.proxy, false), w.proxyApply, w.undo.proxyRollback, true, new0, new1, problem)
  }

  /** The live release of the proxy engine, or what the engine has before the first version. */
  function LiveProxyHash(live: Option<Version>, old0: State): Hash
  {
    if live.Some? then live.value.proxy.hash else Current(old0.store)
  }

  /** The load balancers after a failed version: after a switch the old one has its live release
      again and runs exactly if it ran before and accepts it; without one it stays stopped. */
  ghost predicate LBRestored(live: Option<Version>, userStopped: set<Engine>, v: Version, w: World, new0: State, new1: State,
                             old0: State, old1: State, problem: bool)
  {
    if LiveLB(live) != v.lbEngine then
      && Quiet(new1)
      && (if LiveLBRelease(live).Some? then
            && Current(old1.store) == live.value.lb.hash
            && old1.running == (LBRan(live, userStopped) && Accepts(w.undo.lbApply))
            && problem == (LBRan(live, userStopped) && !old1.running)
          else old1 == Stopped(old0) && !problem)
    else
      old1 == old0
      && RetractedIf(LBCalled(live, v, new0), Req(v.lb, !v.lbRun), w.lbApply, w.undo.lbRollback, false, new0, new1, problem)
  }

  /** Both engines and the tunnel are on the version and run what it has. */
  ghost predicate Serving(v: Version, m: Agents)
    requires Total(m)
  {
    ServersUp(v, m) && m[Tunnel].running == v.tunnelRun && (v.tunnelRun ==> Holds(m[Tunnel], v.tunnel))
  }

  /** The engine has the release, and its history ends in it. */
  predicate Holds(a: State, r: Release)
  {
    Current(a.store) == r.hash && a.store.history != []
  }

  ghost predicate ServersUp(v: Version, m: Agents)
    requires Total(m)
  {
    && Holds(m[v.engine], v.proxy) && m[v.engine].running
    && Holds(m[v.lbEngine], v.lb) && m[v.lbEngine].running == v.lbRun
  }

  ghost predicate Restored(live: Option<Version>, userStopped: set<Engine>, v: Version, w: World, m: Agents, m': Agents,
                           problems: Problems)
    requires Total(m) && Total(m')
  {
    && ProxyRestored(live, v, w, LBGoes(live, v, w, m), m[v.engine], m'[v.engine], m[Rival(v.engine)], m'[Rival(v.engine)],
         problems.proxy)
    && LBRestored(live, userStopped, v, w, m[v.lbEngine], m'[v.lbEngine], m[Rival(v.lbEngine)], m'[Rival(v.lbEngine)],
         problems.lb)
    && RetractedIf(TunnelCalled(live, v, w, m), Req(v.tunnel, !v.tunnelRun), w.tunnelApply, w.undo.tunnelRollback, false,
         m[Tunnel], m'[Tunnel], problems.tunnel)
  }

  /** Between the swaps and a failure: each part was swapped (done) or not begun. */
  ghost predicate Midway(live: Option<Version>, userStopped: set<Engine>, v: Version, w: World, sw: ProxySwap, lsw: LBSwap,
                         changed: bool, m: Agents, m': Agents)
    requires Total(m) && Total(m')
  {
    && ServersMidway(live, userStopped, v, w, sw, lsw, m, m')
    && PartDone(Req(v.tunnel, !v.tunnelRun), w.tunnelApply, false, TunnelCalled(live, v, w, m), changed, m[Tunnel], m'[Tunnel])
  }

  ghost predicate ServersMidway(live: Option<Version>, userStopped: set<Engine>, v: Version, w: World, sw: ProxySwap, lsw: LBSwap,
                                m: Agents, m': Agents)
    requires Total(m) && Total(m')
  {
    && (if LBGoes(live, v, w, m) then
          ProxyDone(live, v, w, sw, m[v.engine], m'[v.engine], m[Rival(v.engine)], m'[Rival(v.engine)])
        else
          ProxyUntouched(live, v, sw, m[v.engine], m'[v.engine], m[Rival(v.engine)], m'[Rival(v.engine)]))
    && LBDone(live, userStopped, v, w, lsw, m[v.lbEngine], m'[v.lbEngine], m[Rival(v.lbEngine)], m'[Rival(v.lbEngine)])
  }

  ghost predicate ProxyUntouched(live: Option<Version>, v: Version, sw: ProxySwap, new0: State, new1: State, old0: State,
                                 old1: State)
  {
    && sw == ProxySwap(None, false, false, false) && new1 == new0 && old1 == old0
    && Quiet(if LiveEngine(live) != v.engine then new1 else old1)
  }

  lemma PartCalled(req: Request, env: Env, alwaysOn: bool, a: State, b: State, resp: Response)
    requires (b, resp) == AfterApply(a, req, env, KEEP, alwaysOn)
    ensures PartDone(req, env, alwaysOn, true, resp.ok, a, b)
  {
    hide AfterApply;
  }

  lemma PartNotCalled(req: Request, env: Env, alwaysOn: bool, a: State)
    ensures PartDone(req, env, alwaysOn, false, false, a, a)
  {
  }

  /** An engine with a named release has it in its history. */
  lemma UpWith(m: Agents, e: Engine, r: Release, run: bool)
    requires Total(m) && AllGood(m) && ValidHash(r.hash)
    ensures Current(m[e].store) == r.hash ==> Holds(m[e], r)
    ensures Has(m[e], r, run) ==> Holds(m[e], r) && m[e].running == run
  {
    hide Neat, ValidHash, Current;
    NotNone(r.hash);
    NeatCurrent(m[e].store);
  }

  lemma ProxyNotBegun(live: Option<Version>, v: Version, m: Agents)
    requires Total(m) && Wellformed(v) && LiveIsWellformed(live) && Free(m, LiveEngine(live))
    ensures ProxyUntouched(live, v, ProxySwap(None, false, false, false), m[v.engine], m[v.engine], m[Rival(v.engine)],
      m[Rival(v.engine)])
  {
    hide Quiet, ValidHash;
  }

  lemma ProxyNotSwapped(v: Version, new0: State, old0: State)
    ensures ProxySwapped(ProxySwap(None, false, false, false), v, new0, old0)
  {
  }

  /** A part that was called, or not, and undone. */
  lemma PartUndone(req: Request, apply: Env, undo: Env, alwaysOn: bool, called: bool, changed: bool, a0: State, a1: State,
                   a2: State, problem: bool)
    requires PartDone(req, apply, alwaysOn, called, changed, a0, a1)
    requires if changed then RolledBackBy(a1, a2, undo, problem) else a2 == a1 && !problem
    ensures RetractedIf(called, req, apply, undo, alwaysOn, a0, a2, problem)
  {
    hide AfterApply, AfterRollback;
  }

  /** What undoing leaves of an engine that stays, exactly: its release and whether it runs, and
      when undoing reports a problem. */
  lemma PartComesBack(a: State, req: Request, apply: Env, undo: Env, alwaysOn: bool)
    requires Neat(a.store) && req.Release() != NONE
    ensures var (b, problem) := Retracted(a, req, apply, undo, alwaysOn);
            (Current(b.store) == Current(a.store) <==> ReleaseIsBack(a, req, apply)) &&
            b.running == RunsRetracted(a, req, apply, undo, alwaysOn) &&
            (problem <==> UndoFails(a, req, apply, undo))
  {
    hide AfterApply, AfterRollback, Neat, Current, Previous, Succeeds, RunsAfterFailure, Quiet;
    var (b, resp) := AfterApply(a, req, apply, KEEP, alwaysOn);
    NeatCurrent(a.store);
    ApplySucceeds(a, req, apply, KEEP, alwaysOn);
    if !resp.ok {
      ApplyFails(a, req, apply, KEEP, alwaysOn);
      ApplyIsSound(a, req, apply, KEEP, alwaysOn);
    } else {
      ApplyIsUndoable(a, req, apply, KEEP, alwaysOn);
      RollbackUndoesApply(a, req, apply, undo, KEEP, alwaysOn);
      RollbackRuns(b, undo);
      if req.stop {
        StopIsQuiet(a, req, apply, KEEP, alwaysOn);
        QuietIsDown(b);
      } else {
        ApplyRuns(a, req, apply, KEEP, alwaysOn);
      }
    }
  }

  lemma ProxyComesBack(live: Option<Version>, v: Version, w: World, reached: bool, sw: ProxySwap, new0: State, new1: State,
                       new2: State, old0: State, old1: State, old2: State, problem: bool)
    requires if reached then ProxyDone(live, v, w, sw, new0, new1, old0, old1)
             else ProxyUntouched(live, v, sw, new0, new1, old0, old1)
    requires ProxyUndone(sw, w.undo, new1, new2, old1, old2, problem)
    ensures ProxyRestored(live, v, w, reached, new0, new2, old0, old2, problem)
    ensures Quiet(if LiveEngine(live) != v.engine then new2 else old2)
  {
    hide Quiet, Current, RolledBackBy, PartDone, RetractedIf;
    if LiveEngine(live) == v.engine {
      if !reached { PartNotCalled(Req(v.proxy, false), w.proxyApply, true, new0); }
      PartUndone(Req(v.proxy, false), w.proxyApply, w.undo.proxyRollback, true, reached, sw.swapped, new0, new1, new2, problem);
    }
  }

  lemma LBComesBack(live: Option<Version>, userStopped: set<Engine>, v: Version, w: World, sw: LBSwap, new0: State,
                    new1: State, new2: State, old0: State, old1: State, old2: State, problem: bool)
    requires LBDone(live, userStopped, v, w, sw, new0, new1, old0, old1)
    requires LBUndone(sw, w.undo, new1, new2, old1, old2, problem)
    ensures LBRestored(live, userStopped, v, w, new0, new2, old0, old2, problem)
    ensures Quiet(if LiveLB(live) != v.lbEngine then new2 else old2)
  {
    hide Quiet, Current, RolledBackBy, PartDone, RetractedIf, Accepts, LBRan, Has, Stopped;
    if LiveLB(live) == v.lbEngine {
      PartUndone(Req(v.lb, !v.lbRun), w.lbApply, w.undo.lbRollback, false, !Has(new0, v.lb, v.lbRun), sw.changed, new0, new1, new2,
        problem);
    }
  }

  /** Undoing from any point leaves what Restored says, and frees the ports of the live engines. */
  lemma AllComesBack(live: Option<Version>, userStopped: set<Engine>, v: Version, w: World, sw: ProxySwap, lsw: LBSwap,
                     changed: bool, m0: Agents, m1: Agents, m2: Agents, ps: Problems)
    requires Total(m0) && Total(m1) && Total(m2) && Wellformed(v) && LiveIsWellformed(live)
    requires Midway(live, userStopped, v, w, sw, lsw, changed, m0, m1)
    requires ProxyUndone(sw, w.undo, m1[v.engine], m2[v.engine], m1[Rival(v.engine)], m2[Rival(v.engine)], ps.proxy)
    requires LBUndone(lsw, w.undo, m1[v.lbEngine], m2[v.lbEngine], m1[Rival(v.lbEngine)], m2[Rival(v.lbEngine)], ps.lb)
    requires TunnelUndone(changed, w.undo, m1[Tunnel], m2[Tunnel], ps.tunnel)
    ensures Restored(live, userStopped, v, w, m0, m2, ps)
    ensures Free(m2, LiveEngine(live)) && Free(m2, LiveLB(live))
  {
    hide Quiet, Current, RolledBackBy, ProxyDone, ProxyUntouched, LBDone, PartDone, ProxyUndone, LBUndone, ProxyRestored,
      LBRestored, RetractedIf, ValidHash, LBGoes, TunnelCalled;
    var other, lbOther, reached := Rival(v.engine), Rival(v.lbEngine), LBGoes(live, v, w, m0);
    ProxyComesBack(live, v, w, reached, sw, m0[v.engine], m1[v.engine], m2[v.engine], m0[other], m1[other], m2[other], ps.proxy);
    LBComesBack(live, userStopped, v, w, lsw, m0[v.lbEngine], m1[v.lbEngine], m2[v.lbEngine], m0[lbOther], m1[lbOther],
      m2[lbOther], ps.lb);
    PartUndone(Req(v.tunnel, !v.tunnelRun), w.tunnelApply, w.undo.tunnelRollback, false, TunnelCalled(live, v, w, m0), changed,
      m0[Tunnel], m1[Tunnel], m2[Tunnel], ps.tunnel);
  }

  /** The running half of a failed switch in plain words: an old proxy engine that ran before and
      comes up again runs, on the live release or untouched; an old load balancer with a live
      release that accepts it again runs if and only if the live version says that it ran, which
      is as before if and only if the live version is right about that. */
  lemma OldEnginesRun(live: Option<Version>, userStopped: set<Engine>, v: Version, w: World, m: Agents, m': Agents, ps: Problems)
    requires Total(m) && Total(m') && Wellformed(v) && LiveIsWellformed(live) && live.Some?
    requires Restored(live, userStopped, v, w, m, m', ps)
    ensures LiveEngine(live) != v.engine && w.undo.proxyStart.starts && m[LiveEngine(live)].running ==>
              && m'[LiveEngine(live)].running && !ps.proxy
              && (m'[LiveEngine(live)] == m[LiveEngine(live)] || Current(m'[LiveEngine(live)].store) == live.value.proxy.hash)
    ensures LiveLB(live) != v.lbEngine && live.value.lb.hash != NONE && Accepts(w.undo.lbApply) ==>
              var ran := live.value.lbRun && live.value.lbEngine !in userStopped;
              && m'[LiveLB(live)].running == ran && !ps.lb
              && Current(m'[LiveLB(live)].store) == live.value.lb.hash
              && (m'[LiveLB(live)].running == m[LiveLB(live)].running <==> ran == m[LiveLB(live)].running)
  {
    hide Quiet, Current, RetractedIf, Accepts, LBGoes, Stopped;
  }

  /** What that says of an engine that stays: one that ran comes back up if it starts and starts
      again, unless it was stopped for good without an older release; one that was stopped and
      was to stay so is started all the same if there is a release to go back to. */
  lemma RunsAsBefore(a: State, req: Request, apply: Env, undo: Env, alwaysOn: bool)
    requires undo.starts && undo.restarts
    ensures a.running && a.wanted && Current(a.store) != NONE && apply.restarts ==>
              (RunsRetracted(a, req, apply, undo, alwaysOn) <==> !req.stop || HasPrevious(a.store, req))
    ensures Quiet(a) && req.stop ==> (RunsRetracted(a, req, apply, undo, alwaysOn) <==> HasPrevious(a.store, req))
  {
    hide Current, Previous, HasPrevious;
  }

  /** The engine of a part has its release again after undoing: the part was not called or failed,
      or brought another release, or there is no older one to end up at. */
  ghost predicate PartKept(called: bool, was: Release, a: State, r: Release, stop: bool, apply: Env)
  {
    called && Succeeds(a, Req(r, stop), apply) && r.hash == was.hash ==> Previous(a.store) == NONE
  }

  lemma PartIsKept(called: bool, was: Release, a: State, r: Release, stop: bool, apply: Env, undo: Env, alwaysOn: bool, b: State,
                   problem: bool)
    requires Neat(a.store) && ValidHash(r.hash) && Holds(a, was)
    requires RetractedIf(called, Req(r, stop), apply, undo, alwaysOn, a, b, problem)
    ensures Current(b.store) == was.hash <==> PartKept(called, was, a, r, stop, apply)
  {
    hide Neat, ValidHash, Retracted, Previous, Succeeds, Current, Req, RunsRetracted, UndoFails;
    ReqRelease(r, stop);
    PartComesBack(a, Req(r, stop), apply, undo, alwaysOn);
  }

  /** A version that went live, and the next one, which fails: exactly when the live releases are
      current again, engine by engine. A switch always brings them back. */
  lemma LiveIsBack(live: Version, userStopped: set<Engine>, v: Version, w: World, m: Agents, m': Agents, ps: Problems)
    requires Total(m) && Total(m') && AllGood(m) && Serving(live, m) && Restored(Some(live), userStopped, v, w, m, m', ps)
    requires Wellformed(live) && ValidHash(live.lb.hash) && Wellformed(v) && ValidHash(v.lb.hash)
    ensures Current(m'[live.engine].store) == live.proxy.hash <==>
            live.engine != v.engine ||
            PartKept(LBGoes(Some(live), v, w, m), live.proxy, m[live.engine], v.proxy, false, w.proxyApply)
    ensures Current(m'[live.lbEngine].store) == live.lb.hash <==>
            live.lbEngine != v.lbEngine ||
            PartKept(LBCalled(Some(live), v, m[live.lbEngine]), live.lb, m[live.lbEngine], v.lb, !v.lbRun, w.lbApply)
    ensures live.tunnelRun ==>
              (Current(m'[Tunnel].store) == live.tunnel.hash <==>
               PartKept(TunnelCalled(Some(live), v, w, m), live.tunnel, m[Tunnel], v.tunnel, !v.tunnelRun, w.tunnelApply))
  {
    hide Neat, AllGood, ValidHash, RetractedIf, PartKept, Current, LBGoes, LBCalled, TunnelCalled, Quiet, LBRan, Accepts;
    GoodAt(m, live.engine);
    GoodAt(m, live.lbEngine);
    GoodAt(m, Tunnel);
    NotNone(live.lb.hash);
    if live.engine == v.engine {
      PartIsKept(LBGoes(Some(live), v, w, m), live.proxy, m[v.engine], v.proxy, false, w.proxyApply, w.undo.proxyRollback, true,
        m'[v.engine], ps.proxy);
    }
    if live.lbEngine == v.lbEngine {
      PartIsKept(LBCalled(Some(live), v, m[v.lbEngine]), live.lb, m[v.lbEngine], v.lb, !v.lbRun, w.lbApply, w.undo.lbRollback,
        false, m'[v.lbEngine], ps.lb);
    }
    if live.tunnelRun {
      PartIsKept(TunnelCalled(Some(live), v, w, m), live.tunnel, m[Tunnel], v.tunnel, !v.tunnelRun, w.tunnelApply,
        w.undo.tunnelRollback, false, m'[Tunnel], ps.tunnel);
    }
  }

  /** What serves a version comes back with its agent: an engine of it that is to run is started
      by the next boot, on the release it has. */
  lemma ServingBoots(v: Version, m: Agents, e: Engine, bootstrap: Bootstrap, starts: bool)
    requires Total(m) && AllGood(m) && Serving(v, m) && Wellformed(v) && ValidHash(v.lb.hash)
    requires e == v.engine || (e == v.lbEngine && v.lbRun) || (e == Tunnel && v.tunnelRun)
    ensures var c := AfterBoot(Halted(m[e]), bootstrap, starts);
            c.wanted && c.running == starts && c.store == m[e].store &&
            Current(c.store) == if e == v.engine then v.proxy.hash else if e == Tunnel then v.tunnel.hash else v.lb.hash
  {
    hide Neat, Quiet, ValidHash, Exclusive;
    GoodAt(m, e);
    NotNone(v.proxy.hash);
    NotNone(v.lb.hash);
    NotNone(v.tunnel.hash);
  }

  /** The tunnel is left alone exactly if it runs as it should and has its release, or is down
      without one and has nothing to run. */
  lemma TunnelIsAsItShould(v: Version, a: State)
    ensures !TunnelDiffers(v, a) <==>
            Has(a, v.tunnel, v.tunnelRun) || (!v.tunnelRun && !a.running && Current(a.store) == NONE)
  {
    hide Current;
  }

  class Service {
    var agents: Agents
    var live: Option<Version>
    /** Engines the user stopped. */
    var userStopped: set<Engine>
    /** The states the engines went through, with an engine counted as up while a call may
        start it. */
    ghost var trace: seq<Agents>

    ghost predicate Ready()
      reads this`agents, this`trace
    {
      Total(agents) && Exclusive(agents) && AllGood(agents) && Safe(trace)
    }

    /** Only the live engines may be up. */
    ghost predicate Valid()
      reads this
    {
      && Ready() && Free(agents, LiveEngine(live)) && Free(agents, LiveLB(live))
      && LiveIsWellformed(live)
    }

    constructor (agents: Agents)
      requires Total(agents) && Quiet(agents[Edge]) && Quiet(agents[Balancer])
      requires AllGood(agents)
      ensures Valid() && this.agents == agents && live == None && trace == [agents]
    {
      this.agents, live, userStopped, trace := agents, None, {}, [agents];
    }

    /** One apply call to an agent. */
    method Call(e: Engine, req: Request, env: Env) returns (resp: Response)
      requires Ready() && req.Release() != NONE && (req.stop || Free(agents, e))
      modifies this`agents, this`trace
      ensures Ready() && agents == old(agents)[e := agents[e]]
      ensures old(trace) <= trace && trace == Traced(old(trace), old(agents), e, !req.stop, agents)
      ensures (agents[e], resp) == AfterApply(old(agents)[e], req, env, KEEP, Proxy(e))
      ensures Answered(req, env, old(agents)[e], agents[e], resp)
    {
      hide AfterApply, Quiet, Good, Neat, Current, Succeeds, Accepts, AllGood, Safe, Exclusive, Traced;
      ghost var a := agents[e];
      var (b, r) := AfterApply(agents[e], req, env, KEEP, Proxy(e));
      GoodAt(agents, e);
      ApplySummary(a, req, env, Proxy(e));
      CallIsSafe(trace, agents, e, !req.stop, b);
      resp := r;
      trace := Traced(trace, agents, e, !req.stop, agents[e := b]);
      agents := agents[e := b];
    }

    method CallRollback(e: Engine, env: Env) returns (resp: Response)
      requires Ready() && Free(agents, e)
      modifies this`agents, this`trace
      ensures Ready() && agents == old(agents)[e := agents[e]]
      ensures old(trace) <= trace && trace == Traced(old(trace), old(agents), e, true, agents)
      ensures RolledBackBy(old(agents)[e], agents[e], env, !resp.ok)
    {
      hide AfterRollback, Quiet, Good, Neat, AllGood, Safe, Exclusive, Traced, Free;
      ghost var a := agents[e];
      var (b, r) := AfterRollback(agents[e], env);
      GoodAt(agents, e);
      RollbackIsGood(a, env);
      CallIsSafe(trace, agents, e, true, b);
      resp := r;
      trace := Traced(trace, agents, e, true, agents[e := b]);
      agents := agents[e := b];
    }

    method CallStart(e: Engine, env: Env) returns (ok: bool)
      requires Ready() && Free(agents, e) && Quiet(agents[e])
      modifies this`agents, this`trace
      ensures Ready() && agents == old(agents)[e := agents[e]]
      ensures old(trace) <= trace && trace == Traced(old(trace), old(agents), e, true, agents)
      ensures agents[e].store == old(agents)[e].store
      ensures ok == agents[e].running == (Current(old(agents)[e].store) != NONE && env.starts)
    {
      hide AfterStartCall, Quiet, Good, Neat, Current, AllGood, Safe, Exclusive, Traced, Free;
      ghost var a := agents[e];
      var (b, r) := AfterStartCall(agents[e], env);
      GoodAt(agents, e);
      StartSummary(a, env);
      StartIsGood(a, env);
      CallIsSafe(trace, agents, e, true, b);
      ok := r;
      trace := Traced(trace, agents, e, true, agents[e := b]);
      agents := agents[e := b];
    }

    /** The load balancer part: a switch stops the old engine before the new one starts; the same
        engine is left alone if it has the release already. */
    method SwapLB(v: Version, w: World) returns (sw: LBSwap, failed: bool)
      requires Valid() && Wellformed(v) && ValidHash(v.lb.hash)
      modifies this`agents, this`trace, this`userStopped
      ensures Ready() && old(trace) <= trace && Free(agents, v.lbEngine)
      ensures forall e: Engine :: !LoadBalancer(e) ==> agents[e] == old(agents)[e]
      ensures LBDone(live, old(userStopped), v, w, sw, old(agents)[v.lbEngine], agents[v.lbEngine],
        old(agents)[Rival(v.lbEngine)], agents[Rival(v.lbEngine)])
      ensures LBSwapped(sw, v, agents[v.lbEngine], agents[Rival(v.lbEngine)])
      ensures failed == !LBGoes(live, v, w, old(agents))
      ensures !failed ==> Holds(agents[v.lbEngine], v.lb) && agents[v.lbEngine].running == v.lbRun
      ensures LiveLB(live) == v.lbEngine && Has(old(agents)[v.lbEngine], v.lb, v.lbRun) ==>
                !failed && !sw.changed && agents == old(agents) && trace == old(trace)
      ensures userStopped == old(userStopped) - if !failed && v.lbRun && (sw.from.Some? || sw.changed) then {v.lbEngine} else {}
    {
      hide Quiet, Good, Neat, AllGood, Safe, Exclusive, Current, ValidHash, Req, StopReq, Traced, AfterApply, LBRan, Accepts,
        Succeeds, PartDone, Has, Stopped, Holds;
      ReqRelease(v.lb, !v.lbRun);
      var prev, next := LiveLB(live), v.lbEngine;
      sw, failed := LBSwap(false, None, None, false, false, false), false;
      if prev != next {
        sw := sw.(from := Some(prev), fromFiles := LiveLBRelease(live), fromRun := LBRan(live, userStopped), oldStop := true);
        StopRelease(LiveLBRelease(live));
        BareStop(agents[prev], w.lbStop, false);
        var _ := Call(prev, StopReq(LiveLBRelease(live)), w.lbStop);
        sw := sw.(started := true);
        var resp := Call(next, Req(v.lb, !v.lbRun), w.lbApply);
        if !resp.ok {
          return sw, true;
        }
        if v.lbRun {
          userStopped := userStopped - {next};
        }
      } else if !Has(agents[next], v.lb, v.lbRun) {
        var resp := Call(next, Req(v.lb, !v.lbRun), w.lbApply);
        PartCalled(Req(v.lb, !v.lbRun), w.lbApply, false, old(agents)[next], agents[next], resp);
        if !resp.ok {
          return LBSwap(false, None, None, false, false, false), true;
        }
        sw := sw.(changed := true);
        if v.lbRun {
          userStopped := userStopped - {next};
        }
      } else {
        PartNotCalled(Req(v.lb, !v.lbRun), w.lbApply, false, agents[next]);
      }
      UpWith(agents, next, v.lb, v.lbRun);
    }

    /** The proxy part: the same engine reloads, another one starts after the old one stopped. */
    method SwapProxy(v: Version, w: World) returns (sw: ProxySwap, failed: bool)
      requires Ready() && Wellformed(v) && Free(agents, LiveEngine(live)) && LiveIsWellformed(live)
      modifies this`agents, this`trace
      ensures Ready() && old(trace) <= trace && Free(agents, v.engine)
      ensures forall e: Engine :: !Proxy(e) ==> agents[e] == old(agents)[e]
      ensures ProxyDone(live, v, w, sw, old(agents)[v.engine], agents[v.engine], old(agents)[Rival(v.engine)],
        agents[Rival(v.engine)])
      ensures ProxySwapped(sw, v, agents[v.engine], agents[Rival(v.engine)]) && sw.swapped == !failed
      ensures failed == !ProxyGoes(v, w, old(agents))
      ensures !failed ==> Holds(agents[v.engine], v.proxy) && agents[v.engine].running
    {
      hide Quiet, Good, Neat, AllGood, Safe, Exclusive, Current, ValidHash, Req, StopReq, Traced, AfterApply, Accepts, Succeeds, PartDone,
        Holds;
      ReqRelease(v.proxy, false);
      var prev, next := LiveEngine(live), v.engine;
      sw := ProxySwap(None, false, false, false);
      if prev != next {
        sw := sw.(from := Some(prev), oldStop := true);
        var release := if live.Some? then Some(live.value.proxy) else None;
        StopRelease(release);
        var _ := Call(prev, StopReq(release), w.proxyStop);
        sw := sw.(started := true);
      }
      ghost var before := agents[next];
      var resp := Call(next, Req(v.proxy, false), w.proxyApply);
      PartCalled(Req(v.proxy, false), w.proxyApply, true, before, agents[next], resp);
      if !resp.ok {
        return sw, true;
      }
      UpWith(agents, next, v.proxy, true);
      sw := sw.(swapped := true);
      failed := false;
    }

    /** The tunnel part: it follows the proxy engine, and is left alone if nothing differs. */
    method SwapTunnel(v: Version, w: World) returns (changed: bool, failed: bool)
      requires Ready() && Wellformed(v)
      modifies this`agents, this`trace, this`userStopped
      ensures Ready() && old(trace) <= trace
      ensures forall e: Engine :: e != Tunnel ==> agents[e] == old(agents)[e]
      ensures PartDone(Req(v.tunnel, !v.tunnelRun), w.tunnelApply, false, TunnelDiffers(v, old(agents)[Tunnel]), changed,
        old(agents)[Tunnel], agents[Tunnel])
      ensures failed == !TunnelGoes(v, w, old(agents))
      ensures !failed ==> agents[Tunnel].running == v.tunnelRun
      ensures userStopped == old(userStopped) - if changed && v.tunnelRun then {Tunnel} else {}
      ensures !failed && v.tunnelRun ==> Holds(agents[Tunnel], v.tunnel)
      ensures if TunnelDiffers(v, old(agents)[Tunnel]) then changed == !failed
              else !failed && !changed && agents == old(agents) && trace == old(trace)
    {
      hide Quiet, Good, Neat, AllGood, Safe, Exclusive, Current, ValidHash, Req, Traced, AfterApply, Accepts, Succeeds, PartDone,
        Holds;
      ReqRelease(v.tunnel, !v.tunnelRun);
      changed, failed := false, false;
      if TunnelDiffers(v, agents[Tunnel]) {
        var resp := Call(Tunnel, Req(v.tunnel, !v.tunnelRun), w.tunnelApply);
        PartCalled(Req(v.tunnel, !v.tunnelRun), w.tunnelApply, false, old(agents)[Tunnel], agents[Tunnel], resp);
        if !resp.ok {
          return false, true;
        }
        changed := true;
        if v.tunnelRun {
          userStopped := userStopped - {Tunnel};
        }
      } else {
        PartNotCalled(Req(v.tunnel, !v.tunnelRun), w.tunnelApply, false, agents[Tunnel]);
      }
      UpWith(agents, Tunnel, v.tunnel, v.tunnelRun);
    }

    /** The load balancer and then, if that did not fail, the proxy engine. */
    method SwapServers(v: Version, w: World) returns (sw: ProxySwap, lsw: LBSwap, failed: bool)
      requires Valid() && Wellformed(v) && ValidHash(v.lb.hash)
      modifies this`agents, this`trace, this`userStopped
      ensures Ready() && old(trace) <= trace
      ensures ServersMidway(live, old(userStopped), v, w, sw, lsw, old(agents), agents)
      ensures ProxySwapped(sw, v, agents[v.engine], agents[Rival(v.engine)])
      ensures LBSwapped(lsw, v, agents[v.lbEngine], agents[Rival(v.lbEngine)])
      ensures agents[Tunnel] == old(agents)[Tunnel]
      ensures failed == !(LBGoes(live, v, w, old(agents)) && ProxyGoes(v, w, old(agents)))
      ensures !failed ==> ServersUp(v, agents) && Free(agents, v.engine) && Free(agents, v.lbEngine)
      ensures userStopped <= old(userStopped) <= userStopped + {v.lbEngine}
    {
      hide Quiet, Good, Neat, AllGood, Safe, Exclusive, Current, ValidHash, ProxyDone, LBDone, ProxySwapped, LBSwapped, Has,
        ProxyUntouched;
      ProxyNotBegun(live, v, agents);
      ProxyNotSwapped(v, agents[v.engine], agents[Rival(v.engine)]);
      lsw, failed := SwapLB(v, w);
      sw := ProxySwap(None, false, false, false);
      if !failed {
        sw, failed := SwapProxy(v, w);
      }
    }

    /** The three swaps in order, up to the first that fails. */
    method Swap(v: Version, w: World) returns (sw: ProxySwap, lsw: LBSwap, changed: bool, failed: bool)
      requires Valid() && Wellformed(v) && ValidHash(v.lb.hash)
      modifies this`agents, this`trace, this`userStopped
      ensures Ready() && old(trace) <= trace
      ensures Midway(live, old(userStopped), v, w, sw, lsw, changed, old(agents), agents)
      ensures ProxySwapped(sw, v, agents[v.engine], agents[Rival(v.engine)])
      ensures LBSwapped(lsw, v, agents[v.lbEngine], agents[Rival(v.lbEngine)])
      ensures failed == !Goes(live, v, w, old(agents))
      ensures !failed ==> Serving(v, agents) && Free(agents, v.engine) && Free(agents, v.lbEngine)
      ensures userStopped <= old(userStopped) <= userStopped + {v.lbEngine, Tunnel}
    {
      hide Quiet, Good, Neat, AllGood, Safe, Exclusive, Current, ValidHash, ProxyDone, LBDone, ProxySwapped, LBSwapped, PartDone,
        TunnelDiffers, ProxyUntouched;
      PartNotCalled(Req(v.tunnel, !v.tunnelRun), w.tunnelApply, false, agents[Tunnel]);
      sw, lsw, failed := SwapServers(v, w);
      changed := false;
      if !failed {
        changed, failed := SwapTunnel(v, w);
      }
    }

    /** One apply of a version, in any world. */
    method ApplyVersion(v: Version, w: World) returns (out: Outcome)
      requires Valid() && Wellformed(v) && ValidHash(v.lb.hash)
      modifies this
      ensures Valid() && old(trace) <= trace
      ensures out.Refused? <==> !w.passes
      ensures out.Live? <==> w.passes && Goes(old(live), v, w, old(agents)) && w.healthy
      ensures out.Refused? ==> agents == old(agents)
      ensures userStopped <= old(userStopped) <= userStopped + {v.lbEngine, Tunnel}
      ensures live == if out.Live? then Some(v) else old(live)
      ensures out.Live? ==> Serving(v, agents)
      ensures out.Undone? ==> Restored(live, old(userStopped), v, w, old(agents), agents, out.problems)
    {
      hide Quiet, Good, Neat, AllGood, Safe, Exclusive, Current, Serving, Restored, Midway, ProxyUndone, LBUndone, TunnelUndone, ProxySwapped,
        LBSwapped, Free, ValidHash;
      if !w.passes {
        return Refused;
      }
      var sw, lsw, changed, failed := Swap(v, w);
      if !failed && w.healthy {
        live := Some(v);
        return Live;
      }
      ghost var m := agents;
      var problems := FailAfterSwap(v, w.undo, sw, lsw, changed);
      AllComesBack(live, old(userStopped), v, w, sw, lsw, changed, old(agents), m, agents, problems);
      return Undone(problems);
    }

    /** Undoes what an apply changed. An engine switch stops the new engine again and brings the
        old one back; without a switch the engine rolls back. */
    method FailAfterSwap(v: Version, w: UndoWorld, sw: ProxySwap, lsw: LBSwap, tunnelChanged: bool) returns (problems: Problems)
      requires Ready() && Wellformed(v) && ValidHash(v.lb.hash)
      requires ProxySwapped(sw, v, agents[v.engine], agents[Rival(v.engine)])
      requires LBSwapped(lsw, v, agents[v.lbEngine], agents[Rival(v.lbEngine)])
      modifies this`agents, this`trace
      ensures Ready() && old(trace) <= trace
      ensures ProxyUndone(sw, w, old(agents)[v.engine], agents[v.engine], old(agents)[Rival(v.engine)],
        agents[Rival(v.engine)], problems.proxy)
      ensures LBUndone(lsw, w, old(agents)[v.lbEngine], agents[v.lbEngine], old(agents)[Rival(v.lbEngine)],
        agents[Rival(v.lbEngine)], problems.lb)
      ensures TunnelUndone(tunnelChanged, w, old(agents)[Tunnel], agents[Tunnel], problems.tunnel)
    {
      hide Quiet, Good, Neat, AllGood, Safe, Exclusive, Current, ValidHash, RolledBackBy, Traced, ProxyUndone, LBUndone;
      var proxy := UndoProxy(v, w, sw);
      var lb := UndoLB(v, w, lsw);
      var tunnel := false;
      if tunnelChanged {
        var resp := CallRollback(Tunnel, w.tunnelRollback);
        tunnel := !resp.ok;
      }
      problems := Problems(proxy, lb, tunnel);
    }

    method UndoProxy(v: Version, w: UndoWorld, sw: ProxySwap) returns (problem: bool)
      requires Ready() && Wellformed(v) && ProxySwapped(sw, v, agents[v.engine], agents[Rival(v.engine)])
      modifies this`agents, this`trace
      ensures Ready() && old(trace) <= trace
      ensures forall e: Engine :: !Proxy(e) ==> agents[e] == old(agents)[e]
      ensures ProxyUndone(sw, w, old(agents)[v.engine], agents[v.engine], old(agents)[Rival(v.engine)],
        agents[Rival(v.engine)], problem)
    {
      hide Quiet, Good, Neat, AllGood, Safe, Exclusive, Current, ValidHash, Req, RolledBackBy, Traced, AfterApply, Accepts, Succeeds;
      problem := false;
      if sw.from == None && sw.swapped {
        var resp := CallRollback(v.engine, w.proxyRollback);
        problem := !resp.ok;
      } else if sw.from != None {
        if sw.started {
          ReqRelease(v.proxy, true);
          var resp := Call(v.engine, Req(v.proxy, true), w.proxyStop);
          problem := !resp.ok;
        }
        if sw.oldStop {
          var ok := CallStart(sw.from.value, w.proxyStart);
          problem := problem || !ok;
        }
      }
    }

    method UndoLB(v: Version, w: UndoWorld, sw: LBSwap) returns (problem: bool)
      requires Ready() && Wellformed(v) && ValidHash(v.lb.hash) && LBSwapped(sw, v, agents[v.lbEngine], agents[Rival(v.lbEngine)])
      modifies this`agents, this`trace
      ensures Ready() && old(trace) <= trace
      ensures forall e: Engine :: !LoadBalancer(e) ==> agents[e] == old(agents)[e]
      ensures LBUndone(sw, w, old(agents)[v.lbEngine], agents[v.lbEngine], old(agents)[Rival(v.lbEngine)],
        agents[Rival(v.lbEngine)], problem)
    {
      hide Quiet, Good, Neat, AllGood, Safe, Exclusive, Current, ValidHash, Req, RolledBackBy, Traced, AfterApply, Accepts, Succeeds;
      problem := false;
      if sw.from != None {
        if sw.started {
          ReqRelease(v.lb, true);
          var resp := Call(v.lbEngine, Req(v.lb, true), w.lbStop);
          problem := !resp.ok;
        }
        if sw.oldStop && sw.fromFiles != None {
          ReqRelease(sw.fromFiles.value, !sw.fromRun);
          var resp := Call(sw.from.value, Req(sw.fromFiles.value, !sw.fromRun), w.lbApply);
          problem := problem || !resp.ok;
        }
      } else if sw.changed {
        var resp := CallRollback(v.lbEngine, w.lbRollback);
        problem := !resp.ok;
      }
    }
  }
}
