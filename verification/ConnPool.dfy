/**
  The pool of watched idle connections to one server (internal/balancer/conn.go), as
  interleaved atomic steps: every region under the pool's lock is one step, and so is every
  channel operation, every write of a connection's flag outside the lock, and every close.

  put spawns a watcher for the connection; its channel (watchDone) doubles as its name here.
  Any number of threads get, put, use and close connections, each busy with one at a time. The
  field owner of a connection is auxiliary: no step reads it.
 */
module ConnPool {
  import opened Common

  type Thread = nat
  type Conn = nat
  type Chan = nat

  const MAX_IDLE: nat := 128

  /** What a watcher's peek came back with: data, a timeout, or EOF or another error. */
  datatype Peek = Data | Timeout | Failed

  datatype Owner = ByPool | ByThread(t: Thread) | ByWatcher(w: Chan) | Gone

  /** A connection's fields, whether it is still open, and who owns it. */
  datatype Fields = Fields(taken: bool, watchBad: bool, watchDone: Chan, open: bool, owner: Owner)

  /** A watcher: peeking, about to take the lock, past it having seen the connection taken or
      having removed it from the pool itself, about to close it, about to close its channel,
      done. */
  datatype Watch = Peeking | Peeked(peek: Peek) | SawTaken(peek: Peek) | Removed | MustClose | MustSignal | Finished

  datatype Watcher = Watcher(conn: Conn, watch: Watch, saw: Option<Peek>)

  /** A thread: using a connection (dialled, or returned by get); in get, about to kick the
      connection it took, waiting for its watcher, or about to look at watchBad; about to close
      a connection (its own, one refused by put, or one spoiled in the pool); or in the close of
      the pool, with some connections still to close. */
  datatype Phase =
    | Using(conn: Conn)
    | Took(conn: Conn) | Kicked(conn: Conn) | Waited(conn: Conn)
    | Dropping(conn: Conn)
    | ClosingPool(rest: set<Conn>)

  datatype State = State(
    idle: seq<Conn>, closed: bool, conns: map<Conn, Fields>,
    made: nat, signalled: set<Chan>, watchers: map<Chan, Watcher>,
    threads: map<Thread, Phase>)

  datatype Step =
    | Dial(t: Thread, c: Conn)
    | GetTakes(t: Thread)
    | GetKicks(t: Thread)
    | GetWaits(t: Thread)
    | GetLooks(t: Thread)
    | Put(t: Thread)
    | Abandon(t: Thread) // a user gives up on its connection
    | Drops(t: Thread)
    | PeekReturns(w: Chan, peek: Peek)
    | WatchLocks(w: Chan)
    | WatchMarks(w: Chan)
    | WatchCloses(w: Chan)
    | WatchSignals(w: Chan)
    | ClosePool(t: Thread)
    | CloseOne(t: Thread, c: Conn)

  function Without(idle: seq<Conn>, c: Conn): seq<Conn>
  {
    if idle == [] then []
    else if idle[0] == c then idle[1..]
    else [idle[0]] + Without(idle[1..], c)
  }

  /** Everything idle is marked taken, by the thread that closes the pool. */
  function TakeAll(conns: map<Conn, Fields>, idle: seq<Conn>, t: Thread): map<Conn, Fields>
  {
    map c | c in conns :: if c in idle then conns[c].(taken := true, owner := ByThread(t)) else conns[c]
  }

  function Closed(f: Fields): Fields
  {
    f.(open := false, owner := Gone)
  }

  ghost predicate ThreadStep(s: State, s': State, step: Step)
  {
    match step
    case Dial(t, c) =>
      t !in s.threads && c !in s.conns &&
      s' == s.(conns := s.conns[c := Fields(false, false, 0, true, ByThread(t))], threads := s.threads[t := Using(c)])
    case GetTakes(t) =>
      t !in s.threads &&
      if s.idle == [] then s' == s
      else
        var c := s.idle[|s.idle| - 1];
        c in s.conns &&
        s' == s.(idle := s.idle[..|s.idle| - 1], conns := s.conns[c := s.conns[c].(taken := true, owner := ByThread(t))],
                 threads := s.threads[t := Took(c)])
    case GetKicks(t) =>
      t in s.threads && s.threads[t].Took? && s' == s.(threads := s.threads[t := Kicked(s.threads[t].conn)])
    case GetWaits(t) =>
      t in s.threads && s.threads[t].Kicked? && s.threads[t].conn in s.conns &&
      s.conns[s.threads[t].conn].watchDone in s.signalled &&
      s' == s.(threads := s.threads[t := Waited(s.threads[t].conn)])
    case GetLooks(t) =>
      t in s.threads && s.threads[t].Waited? && s.threads[t].conn in s.conns &&
      var c := s.threads[t].conn;
      s' == s.(threads := s.threads[t := if s.conns[c].watchBad then Dropping(c) else Using(c)])
    case Put(t) =>
      t in s.threads && s.threads[t].Using? && s.threads[t].conn in s.conns &&
      var c := s.threads[t].conn;
      if s.closed || |s.idle| >= MAX_IDLE then
        s' == s.(threads := s.threads[t := Dropping(c)])
      else
        s' == s.(threads := s.threads - {t}, idle := s.idle + [c], made := s.made + 1,
                 conns := s.conns[c := Fields(false, false, s.made, s.conns[c].open, ByPool)],
                 watchers := s.watchers[s.made := Watcher(c, Peeking, None)])
    case Abandon(t) =>
      t in s.threads && s.threads[t].Using? && s' == s.(threads := s.threads[t := Dropping(s.threads[t].conn)])
    case Drops(t) =>
      t in s.threads && s.threads[t].Dropping? && s.threads[t].conn in s.conns &&
      var c := s.threads[t].conn;
      s' == s.(threads := s.threads - {t}, conns := s.conns[c := Closed(s.conns[c])])
    case ClosePool(t) =>
      t !in s.threads &&
      s' == s.(closed := true, idle := [], conns := TakeAll(s.conns, s.idle, t),
               threads := s.threads[t := ClosingPool(set c | c in s.idle)])
    case CloseOne(t, c) =>
      t in s.threads && s.threads[t].ClosingPool? && c in s.threads[t].rest && c in s.conns &&
      s' == s.(threads := s.threads[t := ClosingPool(s.threads[t].rest - {c})], conns := s.conns[c := Closed(s.conns[c])])
    case _ => false
  }

  ghost predicate WatcherStep(s: State, s': State, step: Step)
  {
    match step
    case PeekReturns(w, peek) =>
      w in s.watchers && s.watchers[w].watch.Peeking? &&
      s' == s.(watchers := s.watchers[w := s.watchers[w].(watch := Peeked(peek), saw := Some(peek))])
    case WatchLocks(w) =>
      w in s.watchers && s.watchers[w].watch.Peeked? && s.watchers[w].conn in s.conns &&
      var c := s.watchers[w].conn;
      if s.conns[c].taken then
        s' == s.(watchers := s.watchers[w := s.watchers[w].(watch := SawTaken(s.watchers[w].watch.peek))])
      else
        s' == s.(watchers := s.watchers[w := s.watchers[w].(watch := Removed)],
                 idle := Without(s.idle, c), conns := s.conns[c := s.conns[c].(owner := ByWatcher(w))])
    case WatchMarks(w) =>
      w in s.watchers && (s.watchers[w].watch.SawTaken? || s.watchers[w].watch.Removed?) && s.watchers[w].conn in s.conns &&
      var c, watch := s.watchers[w].conn, s.watchers[w].watch;
      s' == s.(conns := s.conns[c := s.conns[c].(watchBad := watch.Removed? || watch.peek != Timeout)],
               watchers := s.watchers[w := s.watchers[w].(watch := if watch.Removed? then MustClose else MustSignal)])
    case WatchCloses(w) =>
      w in s.watchers && s.watchers[w].watch.MustClose? && s.watchers[w].conn in s.conns &&
      s' == s.(conns := s.conns[s.watchers[w].conn := Closed(s.conns[s.watchers[w].conn])],
               watchers := s.watchers[w := s.watchers[w].(watch := MustSignal)])
    case WatchSignals(w) =>
      w in s.watchers && s.watchers[w].watch.MustSignal? && s.watchers[w].conn in s.conns &&
      s' == s.(signalled := s.signalled + {s.conns[s.watchers[w].conn].watchDone},
               watchers := s.watchers[w := s.watchers[w].(watch := Finished)])
    case _ => false
  }

  ghost predicate Next(s: State, s': State)
  {
    exists step :: ThreadStep(s, s', step) || WatcherStep(s, s', step)
  }

  ghost predicate Init(s: State)
  {
    s == State([], false, map[], 0, {}, map[], map[])
  }

  // ------------------------------------------------------------ invariant

  function HeldBy(p: Phase): set<Conn>
  {
    if p.ClosingPool? then p.rest else {p.conn}
  }

  ghost predicate NoDuplicates(idle: seq<Conn>)
  {
    forall i, j :: 0 <= i < j < |idle| ==> idle[i] != idle[j]
  }

  /** The watcher a connection knows is its own. */
  ghost predicate Watched(s: State, c: Conn, f: Fields)
  {
    f.watchDone in s.watchers && s.watchers[f.watchDone].conn == c
  }

  ghost predicate PoolOk(s: State)
  {
    NoDuplicates(s.idle) &&
    |s.idle| <= MAX_IDLE &&
    (s.closed ==> s.idle == []) &&
    forall c :: c in s.idle ==> c in s.conns && s.conns[c].owner == ByPool && Watched(s, c, s.conns[c])
  }

  /** A connection c a thread in phase p holds: one from the pool is taken, and its watcher has
      signalled before get looks at the outcome; one in use has no unfinished watcher. */
  ghost predicate ThreadFine(p: Phase, t: Thread, f: Fields, watched: bool, signalled: bool)
  {
    f.owner == ByThread(t) &&
    (p.Took? || p.Kicked? || p.Waited? ==> f.taken && watched) &&
    (p.Waited? ==> signalled) &&
    (p.ClosingPool? ==> f.taken) &&
    (p.Using? || p.Dropping? ==> signalled || !watched)
  }

  ghost predicate ThreadsOk(s: State)
  {
    forall t, c :: t in s.threads && c in HeldBy(s.threads[t]) ==>
      c in s.conns && ThreadFine(s.threads[t], t, s.conns[c], Watched(s, c, s.conns[c]), s.conns[c].watchDone in s.signalled)
  }

  /** A watcher w, against the fields of its connection: until it signals it is the one the
      connection knows, and whether the pool holds the connection is what taken says. */
  ghost predicate WatcherFine(w: Chan, watcher: Watcher, f: Fields, signalled: bool)
  {
    var watch, saw := watcher.watch, watcher.saw;
    (!watch.Peeking? ==> saw.Some?) &&
    (watch.Finished? <==> signalled) &&
    (!watch.Finished? ==> f.watchDone == w) &&
    (watch.Peeking? || watch.Peeked? ==> (f.taken <==> f.owner != ByPool) && !f.owner.ByWatcher?) &&
    (watch.Peeked? || watch.SawTaken? ==> saw == Some(watch.peek)) &&
    (watch.SawTaken? || watch.MustSignal? ==> f.owner != ByPool && !f.owner.ByWatcher?) &&
    (watch.Removed? || watch.MustClose? ==> f.owner == ByWatcher(w)) &&
    (watch.Finished? && f.watchDone == w ==> f.owner != ByPool && !f.owner.ByWatcher?) &&
    ((watch.MustSignal? || watch.Finished?) && f.owner.ByThread? && f.watchDone == w ==> f.watchBad == (saw != Some(Timeout)))
  }

  ghost predicate WatchersOk(s: State)
  {
    s.signalled <= s.watchers.Keys &&
    forall w :: w in s.watchers ==>
      w < s.made && s.watchers[w].conn in s.conns &&
      WatcherFine(w, s.watchers[w], s.conns[s.watchers[w].conn], w in s.signalled)
  }

  /** Who holds a connection, as the program's own data tells. */
  ghost predicate Holds(s: State, c: Conn, o: Owner)
  {
    match o
    case ByPool => c in s.idle
    case ByThread(t) => t in s.threads && c in HeldBy(s.threads[t])
    case ByWatcher(w) => w in s.watchers && s.watchers[w].conn == c && (s.watchers[w].watch.Removed? || s.watchers[w].watch.MustClose?)
    case Gone => false
  }

  /** Every connection is open and held by its owner, or closed and nobody holds it any more. */
  ghost predicate HomesOk(s: State)
  {
    forall c :: c in s.conns ==>
      s.conns[c].open == !s.conns[c].owner.Gone? && (s.conns[c].open ==> Holds(s, c, s.conns[c].owner))
  }

  ghost predicate Inv(s: State)
  {
    PoolOk(s) && ThreadsOk(s) && WatchersOk(s) && HomesOk(s)
  }

  lemma {:induction false} WithoutHas(idle: seq<Conn>, c: Conn)
    ensures |Without(idle, c)| <= |idle|
    ensures forall d :: d in Without(idle, c) ==> d in idle
    ensures forall d :: d in idle && d != c ==> d in Without(idle, c)
  {
    if idle != [] {
      WithoutHas(idle[1..], c);
      assert idle == [idle[0]] + idle[1..];
    }
  }

  lemma {:induction false} WithoutIs(idle: seq<Conn>, c: Conn)
    requires NoDuplicates(idle)
    ensures NoDuplicates(Without(idle, c)) &&
            c !in Without(idle, c)
  {
    if idle != [] {
      var t := idle[1..];
      assert idle[0] !in t;
      WithoutIs(t, c);
      WithoutHas(t, c);
    }
  }

  /** The steps that only move a thread on, with the connection it has. */
  predicate Moves(step: Step)
  {
    step.GetKicks? || step.GetWaits? || step.GetLooks? || step.Abandon?
  }

  /** Those, and the one that makes a connection. */
  predicate Calm(step: Step)
  {
    Moves(step) || step.Dial?
  }

  /** The steps by which a thread closes a connection it holds. */
  predicate Drops(step: Step)
  {
    step.Drops? || step.CloseOne?
  }

  /** The steps by which a thread takes connections out of the pool. */
  predicate Takes(step: Step)
  {
    step.GetTakes? || step.ClosePool?
  }

  /** A watcher learns something, or writes it down. */
  predicate Looks(step: Step)
  {
    step.PeekReturns? || step.WatchMarks?
  }

  /** The last steps of a watcher. */
  predicate Ends(step: Step)
  {
    step.WatchCloses? || step.WatchSignals?
  }

  // Each step keeps the invariant about the idle list.

  lemma CalmKeepsPool(s: State, s': State, step: Step)
    requires PoolOk(s) && ThreadStep(s, s', step) && Calm(step)
    ensures PoolOk(s')
  {
  }

  lemma DropKeepsPool(s: State, s': State, step: Step)
    requires PoolOk(s) && ThreadsOk(s) && ThreadStep(s, s', step) && Drops(step)
    ensures PoolOk(s')
  {
  }

  lemma TakeKeepsPool(s: State, s': State, step: Step)
    requires PoolOk(s) && ThreadsOk(s) && ThreadStep(s, s', step) && Takes(step)
    ensures PoolOk(s')
  {
    if step.GetTakes? && s.idle != [] {
      var n := |s.idle| - 1;
      assert forall c :: c in s.idle && c != s.idle[n] ==> c in s.idle[..n];
    }
  }

  lemma PutKeepsPool(s: State, s': State, step: Step)
    requires PoolOk(s) && ThreadsOk(s) && WatchersOk(s) && ThreadStep(s, s', step) && step.Put?
    ensures PoolOk(s')
  {
  }

  lemma LockKeepsPool(s: State, s': State, step: Step)
    requires PoolOk(s) && WatcherStep(s, s', step) && step.WatchLocks?
    ensures PoolOk(s')
  {
    WithoutHas(s.idle, s.watchers[step.w].conn);
    WithoutIs(s.idle, s.watchers[step.w].conn);
  }

  lemma WatchKeepsPool(s: State, s': State, step: Step)
    requires PoolOk(s) && WatchersOk(s) && WatcherStep(s, s', step) && !step.WatchLocks?
    ensures PoolOk(s')
  {
  }

  // Each step keeps the invariant about what threads hold.

  lemma MoveKeepsThreads(s: State, s': State, step: Step)
    requires ThreadsOk(s) && ThreadStep(s, s', step) && Moves(step)
    ensures ThreadsOk(s')
  {
  }

  lemma DialKeepsThreads(s: State, s': State, step: Step)
    requires ThreadsOk(s) && WatchersOk(s) && ThreadStep(s, s', step) && step.Dial?
    ensures ThreadsOk(s')
  {
  }

  lemma DropKeepsThreads(s: State, s': State, step: Step)
    requires ThreadsOk(s) && ThreadStep(s, s', step) && Drops(step)
    ensures ThreadsOk(s')
  {
  }

  lemma TakeKeepsThreads(s: State, s': State, step: Step)
    requires ThreadsOk(s) && PoolOk(s) && ThreadStep(s, s', step) && Takes(step)
    ensures ThreadsOk(s')
  {
  }

  lemma PutKeepsThreads(s: State, s': State, step: Step)
    requires ThreadsOk(s) && WatchersOk(s) && ThreadStep(s, s', step) && step.Put?
    ensures ThreadsOk(s')
  {
  }

  lemma LockKeepsThreads(s: State, s': State, step: Step)
    requires ThreadsOk(s) && WatchersOk(s) && WatcherStep(s, s', step) && step.WatchLocks?
    ensures ThreadsOk(s')
  {
  }

  lemma WatchKeepsThreads(s: State, s': State, step: Step)
    requires ThreadsOk(s) && WatchersOk(s) && WatcherStep(s, s', step) && !step.WatchLocks?
    ensures ThreadsOk(s')
  {
  }

  // Each step keeps the invariant about the watchers.

  lemma CalmKeepsWatchers(s: State, s': State, step: Step)
    requires WatchersOk(s) && ThreadStep(s, s', step) && Calm(step)
    ensures WatchersOk(s')
  {
  }

  lemma DropKeepsWatchers(s: State, s': State, step: Step)
    requires WatchersOk(s) && ThreadsOk(s) && ThreadStep(s, s', step) && Drops(step)
    ensures WatchersOk(s')
  {
  }

  lemma TakeKeepsWatchers(s: State, s': State, step: Step)
    requires WatchersOk(s) && PoolOk(s) && ThreadStep(s, s', step) && Takes(step)
    ensures WatchersOk(s')
  {
  }

  lemma PutKeepsWatchers(s: State, s': State, step: Step)
    requires WatchersOk(s) && ThreadsOk(s) && ThreadStep(s, s', step) && step.Put?
    ensures WatchersOk(s')
  {
  }

  lemma LockKeepsWatchers(s: State, s': State, step: Step)
    requires WatchersOk(s) && WatcherStep(s, s', step) && step.WatchLocks?
    ensures WatchersOk(s')
  {
  }

  lemma LookKeepsWatchers(s: State, s': State, step: Step)
    requires WatchersOk(s) && WatcherStep(s, s', step) && Looks(step)
    ensures WatchersOk(s')
  {
  }

  lemma EndKeepsWatchers(s: State, s': State, step: Step)
    requires WatchersOk(s) && WatcherStep(s, s', step) && Ends(step)
    ensures WatchersOk(s')
  {
  }

  // Each step keeps the invariant about the owners.

  lemma CalmKeepsHomes(s: State, s': State, step: Step)
    requires HomesOk(s) && ThreadStep(s, s', step) && Calm(step)
    ensures HomesOk(s')
  {
  }

  lemma DropKeepsHomes(s: State, s': State, step: Step)
    requires HomesOk(s) && ThreadsOk(s) && ThreadStep(s, s', step) && Drops(step)
    ensures HomesOk(s')
  {
  }

  lemma TakeKeepsHomes(s: State, s': State, step: Step)
    requires HomesOk(s) && PoolOk(s) && ThreadStep(s, s', step) && Takes(step)
    ensures HomesOk(s')
  {
    if step.GetTakes? && s.idle != [] {
      var n := |s.idle| - 1;
      assert forall c :: c in s.idle && c != s.idle[n] ==> c in s.idle[..n];
    }
  }

  lemma PutKeepsHomes(s: State, s': State, step: Step)
    requires HomesOk(s) && WatchersOk(s) && ThreadsOk(s) && ThreadStep(s, s', step) && step.Put?
    ensures HomesOk(s')
  {
  }

  lemma LockKeepsHomes(s: State, s': State, step: Step)
    requires HomesOk(s) && ThreadsOk(s) && WatchersOk(s) && WatcherStep(s, s', step) && step.WatchLocks?
    ensures HomesOk(s')
  {
    WithoutHas(s.idle, s.watchers[step.w].conn);
  }

  lemma WatchKeepsHomes(s: State, s': State, step: Step)
    requires HomesOk(s) && WatcherStep(s, s', step) && !step.WatchLocks?
    ensures HomesOk(s')
  {
  }

  lemma StepKeepsInv(s: State, s': State, step: Step)
    requires Inv(s) && (ThreadStep(s, s', step) || WatcherStep(s, s', step))
    ensures Inv(s')
  {
    hide PoolOk, ThreadsOk, WatchersOk, HomesOk, ThreadStep, WatcherStep;
    StepKind(s, s', step);
    if step.Dial? {
      CalmKeepsPool(s, s', step);
      DialKeepsThreads(s, s', step);
      CalmKeepsWatchers(s, s', step);
      CalmKeepsHomes(s, s', step);
    } else if Drops(step) {
      DropKeepsPool(s, s', step);
      DropKeepsThreads(s, s', step);
      DropKeepsWatchers(s, s', step);
      DropKeepsHomes(s, s', step);
    } else if Takes(step) {
      TakeKeepsPool(s, s', step);
      TakeKeepsThreads(s, s', step);
      TakeKeepsWatchers(s, s', step);
      TakeKeepsHomes(s, s', step);
    } else if step.Put? {
      PutKeepsPool(s, s', step);
      PutKeepsThreads(s, s', step);
      PutKeepsWatchers(s, s', step);
      PutKeepsHomes(s, s', step);
    } else if step.WatchLocks? {
      LockKeepsPool(s, s', step);
      LockKeepsThreads(s, s', step);
      LockKeepsWatchers(s, s', step);
      LockKeepsHomes(s, s', step);
    } else if Moves(step) {
      CalmKeepsPool(s, s', step);
      MoveKeepsThreads(s, s', step);
      CalmKeepsWatchers(s, s', step);
      CalmKeepsHomes(s, s', step);
    } else {
      WatchKeepsPool(s, s', step);
      WatchKeepsThreads(s, s', step);
      if Looks(step) { LookKeepsWatchers(s, s', step); } else { EndKeepsWatchers(s, s', step); }
      WatchKeepsHomes(s, s', step);
    }
  }

  lemma StepKind(s: State, s': State, step: Step)
    requires ThreadStep(s, s', step) || WatcherStep(s, s', step)
    ensures if step.WatchLocks? || Looks(step) || Ends(step) then WatcherStep(s, s', step) else ThreadStep(s, s', step)
  {
  }

  // ------------------------------------------------------------ every run

  ghost predicate IsRun(run: seq<State>)
  {
    run != [] && Init(run[0]) && forall i :: 0 <= i < |run| - 1 ==> Next(run[i], run[i + 1])
  }

  lemma RunKeepsInv(run: seq<State>)
    requires IsRun(run)
    ensures forall i :: 0 <= i < |run| ==> Inv(run[i])
  {
    hide Inv, ThreadStep, WatcherStep;
    for n := 0 to |run|
      invariant forall i :: 0 <= i < n ==> Inv(run[i])
    {
      if n > 0 {
        assert Next(run[n - 1], run[n - 1 + 1]);
        var step :| ThreadStep(run[n - 1], run[n], step) || WatcherStep(run[n - 1], run[n], step);
        StepKeepsInv(run[n - 1], run[n], step);
      } else {
        InitHolds(run[0]);
      }
    }
  }

  lemma InitHolds(s: State)
    ensures Init(s) ==> Inv(s)
  {
  }

  /** Ownership: in every interleaving no connection is held by two of the pool, the threads and
      the watchers, exactly the open ones are held by one of them, so none is used after its close
      or closed twice, and the pool holds at most MAX_IDLE connections, none once it is closed. */
  lemma OwnedByOne(run: seq<State>, i: nat, c: Conn, o1: Owner, o2: Owner)
    requires IsRun(run) && i < |run|
    ensures Holds(run[i], c, o1) && Holds(run[i], c, o2) ==> o1 == o2
    ensures c in run[i].conns && run[i].conns[c].open <==> exists o :: Holds(run[i], c, o)
    ensures |run[i].idle| <= 128 &&
            NoDuplicates(run[i].idle) &&
            (run[i].closed ==> run[i].idle == [])
  {
    RunKeepsInv(run);
    assert forall o :: Holds(run[i], c, o) ==> c in run[i].conns && run[i].conns[c].owner == o;
  }

  /** Get hands a connection out if and only if its watcher, which has finished, saw a timeout:
      neither data nor EOF. Otherwise it closes it. None of its watchers is still at work. */
  lemma GetHandsOutQuiet(run: seq<State>, i: nat, t: Thread)
    requires IsRun(run) && i + 1 < |run| && t in run[i].threads && run[i].threads[t].Waited?
    requires ThreadStep(run[i], run[i + 1], GetLooks(t))
    ensures var s, c := run[i + 1], run[i].threads[t].conn;
            c in s.conns &&
            s.conns[c].watchDone in s.watchers &&
            var watcher := s.watchers[s.conns[c].watchDone];
            watcher.conn == c && watcher.watch.Finished? &&
            s.threads[t] == (if watcher.saw == Some(Timeout) then Using(c) else Dropping(c)) &&
            forall w :: w in s.watchers && s.watchers[w].conn == c ==> s.watchers[w].watch.Finished?
  {
    RunKeepsInv(run);
    assert run[i].threads[t].conn in HeldBy(run[i].threads[t]);
  }

  /** No watcher's channel is closed twice, and a watcher closes its own. */
  lemma SignalsOnce(run: seq<State>, i: nat, w: Chan)
    requires IsRun(run) && i < |run| && w in run[i].watchers && run[i].watchers[w].watch.MustSignal?
    ensures var s := run[i]; var c := s.watchers[w].conn;
            c in s.conns && s.conns[c].watchDone == w && w !in s.signalled
  {
    RunKeepsInv(run);
  }

  /** A get of a pool with idle connections takes the one put back last, and no other. */
  lemma GetTakesNewest(s: State, t: Thread) returns (s': State)
    requires Inv(s) && t !in s.threads && s.idle != []
    ensures ThreadStep(s, s', GetTakes(t))
    ensures forall r :: ThreadStep(s, r, GetTakes(t)) ==>
              r.threads == s.threads[t := Took(s.idle[|s.idle| - 1])] && r.idle == s.idle[..|s.idle| - 1]
  {
    var c := s.idle[|s.idle| - 1];
    assert c in s.idle;
    s' := s.(idle := s.idle[..|s.idle| - 1], conns := s.conns[c := s.conns[c].(taken := true, owner := ByThread(t))],
             threads := s.threads[t := Took(c)]);
  }

  /** A connection put into an open pool that is not full is there for the next get, also if its
      own thread gets again. */
  lemma PutThenGet(s: State, t: Thread) returns (s1: State, s2: State)
    requires Inv(s) && t in s.threads && s.threads[t].Using? && !s.closed && |s.idle| < MAX_IDLE
    ensures ThreadStep(s, s1, Put(t)) && ThreadStep(s1, s2, GetTakes(t))
    ensures s1.idle == s.idle + [s.threads[t].conn] && s2.idle == s.idle && s2.threads == s.threads[t := Took(s.threads[t].conn)]
  {
    hide WatchersOk, HomesOk;
    var c := s.threads[t].conn;
    assert c in HeldBy(s.threads[t]);
    s1 := s.(threads := s.threads - {t}, idle := s.idle + [c], made := s.made + 1,
             conns := s.conns[c := Fields(false, false, s.made, s.conns[c].open, ByPool)],
             watchers := s.watchers[s.made := Watcher(c, Peeking, None)]);
    s2 := s1.(idle := s.idle, conns := s1.conns[c := s1.conns[c].(taken := true, owner := ByThread(t))],
              threads := s1.threads[t := Took(c)]);
    assert s1.idle[..|s.idle|] == s.idle;
  }

  /** A get whose watcher has signalled ends by its own steps: with the connection if the watcher
      saw a timeout, and otherwise with its close. */
  lemma GetEnds(s: State, t: Thread) returns (s1: State, s2: State, s3: State)
    requires Inv(s) && t in s.threads && s.threads[t].Took?
    requires var c := s.threads[t].conn; c in s.conns && s.conns[c].watchDone in s.signalled
    ensures ThreadStep(s, s1, GetKicks(t)) && ThreadStep(s1, s2, GetWaits(t)) && ThreadStep(s2, s3, GetLooks(t))
    ensures var c := s.threads[t].conn;
            s.conns[c].watchDone in s.watchers &&
            s3 == s.(threads := s.threads[t :=
                    if s.watchers[s.conns[c].watchDone].saw == Some(Timeout) then Using(c) else Dropping(c)])
  {
    var c := s.threads[t].conn;
    assert c in HeldBy(s.threads[t]);
    hide PoolOk, HomesOk;
    s1 := s.(threads := s.threads[t := Kicked(c)]);
    s2 := s.(threads := s.threads[t := Waited(c)]);
    s3 := s.(threads := s.threads[t := if s.conns[c].watchBad then Dropping(c) else Using(c)]);
    assert s2.threads == s1.threads[t := Waited(c)] && s3.threads == s2.threads[t := s3.threads[t]];
  }

  /** A connection given up, or refused by a pool that is closed or full, is closed, and the pool
      stays as it is. */
  lemma RefusedIsClosed(s: State, t: Thread, step: Step) returns (s1: State, s2: State)
    requires Inv(s) && t in s.threads && s.threads[t].Using?
    requires step == Abandon(t) || (step == Put(t) && (s.closed || |s.idle| == MAX_IDLE))
    ensures ThreadStep(s, s1, step) && ThreadStep(s1, s2, Step.Drops(t))
    ensures var c := s.threads[t].conn;
            c in s.conns && s2 == s.(threads := s.threads - {t}, conns := s.conns[c := Closed(s.conns[c])])
  {
    var c := s.threads[t].conn;
    assert c in HeldBy(s.threads[t]);
    hide WatchersOk, HomesOk;
    s1 := s.(threads := s.threads[t := Dropping(c)]);
    s2 := s.(threads := s.threads - {t}, conns := s.conns[c := Closed(s.conns[c])]);
    assert s2.threads == s1.threads - {t};
  }

  /** From its close on the pool stays empty. */
  lemma {:induction false} ClosedStaysEmpty(run: seq<State>, i: nat, j: nat, t: Thread)
    requires IsRun(run) && i < j < |run| && ThreadStep(run[i], run[i + 1], ClosePool(t))
    ensures run[j].closed && run[j].idle == []
  {
    if i + 1 < j {
      ClosedStaysEmpty(run, i, j - 1, t);
      assert Next(run[j - 1], run[j - 1 + 1]);
    }
  }

  /** The step a watcher takes next. */
  function NextOf(w: Chan, watch: Watch): Step
  {
    match watch
    case Peeking => PeekReturns(w, Timeout)
    case Peeked(_) => WatchLocks(w)
    case MustClose => WatchCloses(w)
    case MustSignal => WatchSignals(w)
    case _ => WatchMarks(w)
  }

  /** No get waits for a watcher that is gone: the watcher of a kicked connection has signalled, or
      it is at work and its next step can be taken. */
  lemma KickedIsAnswered(s: State, t: Thread) returns (s': State)
    requires Inv(s) && t in s.threads && s.threads[t].Kicked?
    ensures var c := s.threads[t].conn;
            c in s.conns && s.conns[c].watchDone in s.watchers &&
            var w := s.conns[c].watchDone;
            if w in s.signalled then ThreadStep(s, s', GetWaits(t))
            else !s.watchers[w].watch.Finished? && WatcherStep(s, s', NextOf(w, s.watchers[w].watch))
  {
    var c := s.threads[t].conn;
    assert c in HeldBy(s.threads[t]);
    var w := s.conns[c].watchDone;
    if w in s.signalled {
      s' := s.(threads := s.threads[t := Waited(c)]);
    } else {
      s' := WatcherGoesOn(s, w);
    }
  }

  /** A watcher that has not finished can take its next step. */
  lemma WatcherGoesOn(s: State, w: Chan) returns (s': State)
    requires Inv(s) && w in s.watchers && !s.watchers[w].watch.Finished?
    ensures WatcherStep(s, s', NextOf(w, s.watchers[w].watch))
  {
    var c, watcher := s.watchers[w].conn, s.watchers[w];
    match watcher.watch
    case Peeking => s' := s.(watchers := s.watchers[w := watcher.(watch := Peeked(Timeout), saw := Some(Timeout))]);
    case Peeked(peek) =>
      s' := if s.conns[c].taken then s.(watchers := s.watchers[w := watcher.(watch := SawTaken(peek))])
            else s.(watchers := s.watchers[w := watcher.(watch := Removed)], idle := Without(s.idle, c),
                    conns := s.conns[c := s.conns[c].(owner := ByWatcher(w))]);
    case SawTaken(peek) =>
      s' := s.(conns := s.conns[c := s.conns[c].(watchBad := peek != Timeout)],
               watchers := s.watchers[w := watcher.(watch := MustSignal)]);
    case Removed =>
      s' := s.(conns := s.conns[c := s.conns[c].(watchBad := true)], watchers := s.watchers[w := watcher.(watch := MustClose)]);
    case MustClose =>
      s' := s.(conns := s.conns[c := Closed(s.conns[c])], watchers := s.watchers[w := watcher.(watch := MustSignal)]);
    case MustSignal =>
      s' := s.(signalled := s.signalled + {s.conns[c].watchDone}, watchers := s.watchers[w := watcher.(watch := Finished)]);
  }
}
