/**
  The cached hash map under concurrency (internal/balancer/lb.go, state.go), as interleaved
  atomic steps: every atomic load or store and every lock operation is one step.

  Lookups (slots) run in any number of threads: they load the version, try the cache, and
  otherwise rebuild the map under a lock from the servers' flags and weights, one load at a
  time. Changes (weight, admin state, health, reload) store flags and weights, in any number of
  steps, and then bump the version. A store that belongs to no change writes back what was
  there (ServerState.SilentEventsChangeNothing), which is no step here.
 */
module HashCache {
  import opened Common
  import opened ServerState
  import RoundRobin

  type Thread = nat

  datatype Cell = Cell(flags: Flags, weight: int)

  datatype Entry = Entry(server: nat, weight: int)

  datatype HashMap = HashMap(ver: nat, slots: seq<nat>)

  /** Which loads of server i a rebuild has done: none, its flags, or also its weight once. */
  datatype Progress = NothingRead | FlagsRead | UsableRead

  datatype Phase =
    | Idle
    | Loaded(ver: nat)
    | Waiting(ver: nat)
    | Locked(ver: nat)
    | Building(ver: nat, i: nat, progress: Progress, ents: seq<Entry>)
    | Done(ver: nat, slots: seq<nat>)

  datatype State = State(
    servers: seq<Cell>, version: nat, changing: set<Thread>,
    cache: Option<HashMap>, lock: Option<Thread>, phases: map<Thread, Phase>)

  // ------------------------------------------------------------ the map of some states

  /** The usable servers below n, with their weights. */
  function Entries(servers: seq<Cell>, n: nat): seq<Entry>
    requires n <= |servers|
  {
    if n == 0 then []
    else
      Entries(servers, n - 1) +
      if UsableLB(servers[n - 1].flags, servers[n - 1].weight) then [Entry(n - 1, servers[n - 1].weight)] else []
  }

  predicate Positive(ents: seq<Entry>)
  {
    forall i :: 0 <= i < |ents| ==> ents[i].weight > 0
  }

  function EntryWeights(ents: seq<Entry>): (ws: RoundRobin.Weights)
    requires Positive(ents)
    ensures |ws| == |ents|
  {
    seq(|ents|, i requires 0 <= i < |ents| => ents[i].weight)
  }

  /** A whole smooth weighted round over the entries. */
  function Round(ents: seq<Entry>): seq<nat>
    requires Positive(ents)
  {
    var ws := EntryWeights(ents);
    var total := RoundRobin.Total(ws);
    seq(if total < 0 then 0 else total, t requires 0 <= t => var p := RoundRobin.Pick(ws, t); if p < 0 then 0 else ents[p].server)
  }

  lemma {:induction false} EntriesPositive(servers: seq<Cell>, n: nat)
    requires n <= |servers|
    ensures Positive(Entries(servers, n))
  {
    if n > 0 { EntriesPositive(servers, n - 1); }
  }

  /** The map rebuilt from the current states. */
  function Rebuilt(servers: seq<Cell>): seq<nat>
  {
    EntriesPositive(servers, |servers|);
    Round(Entries(servers, |servers|))
  }

  // ------------------------------------------------------------ steps

  datatype Step =
    | StoreCell(t: Thread, i: nat, cell: Cell) // a change publishes
    | Bump(t: Thread) // ... and bumps the version
    | LoadVersion(t: Thread)
    | TryCache(t: Thread)
    | TakeLock(t: Thread)
    | RetryCache(t: Thread)
    | ReadFlags(t: Thread)
    | ReadWeight(t: Thread)
    | ReadWeightAgain(t: Thread)
    | StoreCache(t: Thread, slots: seq<nat>)
    | Return(t: Thread)

  function PhaseOf(s: State, t: Thread): Phase
  {
    if t in s.phases then s.phases[t] else Idle
  }

  ghost predicate Takes(s: State, s': State, step: Step)
  {
    match step
    case StoreCell(t, i, cell) =>
      i < |s.servers| && s' == s.(servers := s.servers[i := cell], changing := s.changing + {t})
    case Bump(t) =>
      t in s.changing && s' == s.(version := s.version + 1, changing := s.changing - {t})
    case LoadVersion(t) =>
      PhaseOf(s, t).Idle? && s' == s.(phases := s.phases[t := Loaded(s.version)])
    case TryCache(t) =>
      PhaseOf(s, t).Loaded? &&
      var ver := PhaseOf(s, t).ver;
      s' == s.(phases := s.phases[t :=
        if s.cache.Some? && s.cache.value.ver == ver then Done(ver, s.cache.value.slots) else Waiting(ver)])
    case TakeLock(t) =>
      PhaseOf(s, t).Waiting? && s.lock.None? &&
      s' == s.(lock := Some(t), phases := s.phases[t := Locked(PhaseOf(s, t).ver)])
    case RetryCache(t) =>
      PhaseOf(s, t).Locked? &&
      var ver := PhaseOf(s, t).ver;
      if s.cache.Some? && s.cache.value.ver == ver
      then s' == s.(lock := None, phases := s.phases[t := Done(ver, s.cache.value.slots)])
      else s' == s.(phases := s.phases[t := Building(ver, 0, NothingRead, [])])
    case ReadFlags(t) =>
      var p := PhaseOf(s, t);
      p.Building? && p.progress == NothingRead && p.i < |s.servers| &&
      s' == s.(phases := s.phases[t :=
        if s.servers[p.i].flags == Flags(true, false, false) then p.(progress := FlagsRead) else p.(i := p.i + 1)])
    case ReadWeight(t) =>
      var p := PhaseOf(s, t);
      p.Building? && p.progress == FlagsRead && p.i < |s.servers| &&
      s' == s.(phases := s.phases[t :=
        if s.servers[p.i].weight > 0 then p.(progress := UsableRead) else p.(i := p.i + 1, progress := NothingRead)])
    case ReadWeightAgain(t) =>
      var p := PhaseOf(s, t);
      p.Building? && p.progress == UsableRead && p.i < |s.servers| &&
      s' == s.(phases := s.phases[t :=
        p.(i := p.i + 1, progress := NothingRead, ents := p.ents + [Entry(p.i, s.servers[p.i].weight)])])
    case StoreCache(t, slots) =>
      // Loads torn by a change may have left an entry without weight: then any map may result.
      var p := PhaseOf(s, t);
      p.Building? && p.progress == NothingRead && p.i == |s.servers| &&
      (Positive(p.ents) ==> slots == Round(p.ents)) &&
      s' == s.(cache := Some(HashMap(p.ver, slots)), lock := None, phases := s.phases[t := Done(p.ver, slots)])
    case Return(t) =>
      PhaseOf(s, t).Done? && s' == s.(phases := s.phases[t := Idle])
  }

  ghost predicate Next(s: State, s': State)
  {
    exists step :: Takes(s, s', step)
  }

  ghost predicate Init(s: State)
  {
    s.changing == {} && s.cache == None && s.lock == None && s.phases == map[]
  }

  // ------------------------------------------------------------ invariant

  /** The version ver is the current one and no change is between its stores and its bump. */
  ghost predicate Fresh(s: State, ver: nat)
  {
    s.changing == {} && ver == s.version
  }

  /** What a rebuild has read so far agrees with the current states. */
  ghost predicate ReadsAgree(servers: seq<Cell>, p: Phase)
    requires p.Building?
  {
    p.i <= |servers| && p.ents == Entries(servers, p.i) &&
    (p.progress != NothingRead ==> p.i < |servers| && servers[p.i].flags == Flags(true, false, false)) &&
    (p.progress == UsableRead ==> servers[p.i].weight > 0)
  }

  ghost predicate PhaseOk(s: State, p: Phase)
  {
    !p.Idle? ==>
      p.ver <= s.version &&
      (p.Building? ==> if p.progress == NothingRead then p.i <= |s.servers| else p.i < |s.servers|) &&
      (Fresh(s, p.ver) ==>
        (p.Building? ==> ReadsAgree(s.servers, p)) &&
        (p.Done? ==> p.slots == Rebuilt(s.servers)))
  }

  ghost predicate Inv(s: State)
  {
    (s.cache.Some? ==>
      s.cache.value.ver <= s.version &&
      (Fresh(s, s.cache.value.ver) ==> s.cache.value.slots == Rebuilt(s.servers))) &&
    (forall t :: t in s.phases ==> PhaseOk(s, s.phases[t])) &&
    (s.lock.Some? ==> s.lock.value in s.phases) &&
    (forall t :: t in s.phases ==> ((s.phases[t].Locked? || s.phases[t].Building?) <==> s.lock == Some(t)))
  }

  lemma StepKeepsInv(s: State, s': State, step: Step)
    requires Inv(s) && Takes(s, s', step)
    ensures Inv(s')
  {
    hide Rebuilt, Round, Positive;
    match step
    case StoreCell(_, _, _) => ChangeKeepsInv(s, s');
    case Bump(_) => ChangeKeepsInv(s, s');
    case StoreCache(t, slots) =>
      EntriesPositive(s.servers, |s.servers|);
      RebuiltIs(s.servers);
      LookupKeepsInv(s, s', t);
    case _ => LookupKeepsInv(s, s', step.t);
  }

  lemma RebuiltIs(servers: seq<Cell>)
    requires Positive(Entries(servers, |servers|))
    ensures Rebuilt(servers) == Round(Entries(servers, |servers|))
  {
  }

  /** A change in progress, or its bump, leaves no version fresh that was loaded before. */
  lemma ChangeKeepsInv(s: State, s': State)
    requires Inv(s)
    requires s'.cache == s.cache && s'.lock == s.lock && s'.phases == s.phases && |s'.servers| == |s.servers|
    requires (s'.version == s.version && s'.changing != {}) || s'.version == s.version + 1
    ensures Inv(s')
  {
  }

  /** A lookup's step moves one thread and keeps what the others rely on. */
  lemma LookupKeepsInv(s: State, s': State, t: Thread)
    requires Inv(s)
    requires s'.servers == s.servers && s'.version == s.version && s'.changing == s.changing
    requires t in s'.phases && s'.phases == s.phases[t := s'.phases[t]]
    requires PhaseOk(s', s'.phases[t])
    requires s'.cache == s.cache || (s'.cache.Some? && s'.phases[t] == Done(s'.cache.value.ver, s'.cache.value.slots))
    requires if s'.phases[t].Locked? || s'.phases[t].Building? then
               s'.lock == Some(t) && (s.lock == None || s.lock == Some(t))
             else s'.lock == if s.lock == Some(t) then None else s.lock
    ensures Inv(s')
  {
  }

  // ------------------------------------------------------------ every run

  ghost predicate IsRun(run: seq<State>)
  {
    run != [] && Init(run[0]) && forall i :: 0 <= i < |run| - 1 ==> Next(run[i], run[i + 1])
  }

  lemma RunKeepsInv(run: seq<State>)
    requires IsRun(run)
    ensures forall i :: 0 <= i < |run| ==> Inv(run[i])
  {
    for n := 0 to |run|
      invariant forall i :: 0 <= i < n ==> Inv(run[i])
    {
      if n > 0 {
        assert Next(run[n - 1], run[n - 1 + 1]);
        var step :| Takes(run[n - 1], run[n], step);
        StepKeepsInv(run[n - 1], run[n], step);
      }
    }
  }

  /** Cache coherence: in every interleaving, whenever no change is between its stores and its
      bump, a cached map of the current version is the map rebuilt from the current states, and
      so is the map every finished lookup of that version returns. */
  lemma CacheIsCoherent(run: seq<State>, i: nat)
    requires IsRun(run) && i < |run| && run[i].changing == {}
    ensures run[i].cache.Some? && run[i].cache.value.ver == run[i].version ==>
              run[i].cache.value.slots == Rebuilt(run[i].servers)
    ensures forall t :: t in run[i].phases && run[i].phases[t].Done? && run[i].phases[t].ver == run[i].version ==>
              run[i].phases[t].slots == Rebuilt(run[i].servers)
  {
    RunKeepsInv(run);
    assert forall t :: t in run[i].phases ==> PhaseOk(run[i], run[i].phases[t]);
  }

  /** A change stores and then bumps: that ends it, with what it stored in force and every map
      cached before of an older version. */
  lemma ChangeTakesEffect(s: State, t: Thread, i: nat, cell: Cell) returns (s1: State, s2: State)
    requires Inv(s) && i < |s.servers|
    ensures Takes(s, s1, StoreCell(t, i, cell)) && Takes(s1, s2, Bump(t))
    ensures s2.servers == s.servers[i := cell] && s2.changing == s.changing - {t}
    ensures s2.cache == s.cache && (s2.cache.Some? ==> s2.cache.value.ver < s2.version)
  {
    s1 := s.(servers := s.servers[i := cell], changing := s.changing + {t});
    s2 := s1.(version := s.version + 1, changing := s1.changing - {t});
  }

  /** A lookup that ends, by a hit or a rebuild, has its map cached, and the next lookup is given
      the same one as long as the version is the same, without taking the lock. */
  lemma LookupIsReused(s: State, s1: State, step: Step, u: Thread) returns (s2: State, s3: State)
    requires Inv(s) && Takes(s, s1, step) && !PhaseOf(s, step.t).Done? && PhaseOf(s1, step.t).Done?
    requires PhaseOf(s1, step.t).ver == s1.version && PhaseOf(s1, u).Idle?
    ensures Takes(s1, s2, LoadVersion(u)) && Takes(s2, s3, TryCache(u))
    ensures PhaseOf(s3, u) == PhaseOf(s1, step.t) && s3.lock == s1.lock
  {
    hide Rebuilt, Round, Positive, Entries;
    s2 := s1.(phases := s1.phases[u := Loaded(s1.version)]);
    s3 := s2.(phases := s2.phases[u := PhaseOf(s1, step.t)]);
  }

  // ------------------------------------------------------------ no lookup is stuck

  /** A lookup under way can take its next step; one that waits for the lock finds it free, or the
      thread that holds it can take its next step. */
  lemma LookupGoesOn(s: State, t: Thread) returns (s': State, step: Step)
    requires Inv(s) && !PhaseOf(s, t).Idle?
    ensures Takes(s, s', step)
    ensures step.t == if PhaseOf(s, t).Waiting? && s.lock.Some? then s.lock.value else t
  {
    hide Rebuilt, Round, Positive, Entries;
    if PhaseOf(s, t).Waiting? && s.lock.Some? {
      s', step := HolderGoesOn(s, s.lock.value);
      return;
    }
    var p := PhaseOf(s, t);
    match p
    case Loaded(ver) =>
      step := TryCache(t);
      s' := s.(phases := s.phases[t :=
        if s.cache.Some? && s.cache.value.ver == ver then Done(ver, s.cache.value.slots) else Waiting(ver)]);
    case Waiting(ver) =>
      step := TakeLock(t);
      s' := s.(lock := Some(t), phases := s.phases[t := Locked(ver)]);
    case Done(_, _) =>
      step := Return(t);
      s' := s.(phases := s.phases[t := Idle]);
    case _ => s', step := HolderGoesOn(s, t);
  }

  lemma HolderGoesOn(s: State, t: Thread) returns (s': State, step: Step)
    requires Inv(s) && t in s.phases && s.lock == Some(t)
    ensures Takes(s, s', step) && step.t == t
  {
    hide Rebuilt, Round, Positive, Entries;
    var p := s.phases[t];
    if p.Locked? {
      step := RetryCache(t);
      s' := if s.cache.Some? && s.cache.value.ver == p.ver
            then s.(lock := None, phases := s.phases[t := Done(p.ver, s.cache.value.slots)])
            else s.(phases := s.phases[t := Building(p.ver, 0, NothingRead, [])]);
    } else if p.progress == NothingRead && p.i == |s.servers| {
      var slots: seq<nat> := if Positive(p.ents) then Round(p.ents) else [];
      step := StoreCache(t, slots);
      s' := s.(cache := Some(HashMap(p.ver, slots)), lock := None, phases := s.phases[t := Done(p.ver, slots)]);
    } else if p.progress == NothingRead {
      step := ReadFlags(t);
      s' := s.(phases := s.phases[t :=
        if s.servers[p.i].flags == Flags(true, false, false) then p.(progress := FlagsRead) else p.(i := p.i + 1)]);
    } else if p.progress == FlagsRead {
      step := ReadWeight(t);
      s' := s.(phases := s.phases[t :=
        if s.servers[p.i].weight > 0 then p.(progress := UsableRead) else p.(i := p.i + 1, progress := NothingRead)]);
    } else {
      step := ReadWeightAgain(t);
      s' := s.(phases := s.phases[t :=
        p.(i := p.i + 1, progress := NothingRead, ents := p.ents + [Entry(p.i, s.servers[p.i].weight)])]);
    }
  }
}
