/**
  A load-balanced server's state: health counter with hysteresis, admin state, runtime weight
  and the flags the hot path reads (internal/balancer/state.go, runtimeapi.go). ServerState
  holds the transitions as functions on a record; SrvState is the object that carries it.
 */
module ServerState {
  import opened Common

  /** Unset is the admin state of a server no configuration was applied to yet. */
  datatype Admin = Unset | Ready | Drain | Maint

  /** The hot-path flags: running and resolved, admin drain, admin maintenance. */
  datatype Flags = Flags(up: bool, drain: bool, maint: bool)

  /** A server definition of a (re)loaded configuration. */
  datatype Definition = Definition(state: Admin, weight: int, checkOn: bool, rise: int, fall: int, unresolved: bool)
  {
    /** What the configuration validator and compiler guarantee. */
    predicate Valid()
    {
      state != Unset && 0 <= weight <= 256 && rise >= 1 && fall >= 1
    }
  }

  /** Times are instants on the server's clock. */
  datatype Server = Server(
    flags: Flags, weight: int,
    cfgState: Admin, cfgWeight: int, checkOn: bool, rise: int, fall: int, checkGen: nat, unresolved: bool,
    admin: Admin, running: bool, health: int, downSince: int, downtime: int)

  datatype Event =
    | Load(def: Definition, at: int)
    | Check(gen: nat, ok: bool, at: int)
    | SetAdmin(admin: Admin, at: int)
    | ForceHealth(up: bool, at: int)
    | SetWeight(weight: int, at: int) // a 64-bit number, of which the state keeps 32 bits

  const FRESH: Server :=
    Server(Flags(false, false, false), 0, Unset, 0, false, 0, 0, 0, false, Unset, false, 0, 0, 0)

  predicate UsableLB(flags: Flags, weight: int)
  {
    flags == Flags(true, false, false) && weight > 0
  }

  // ------------------------------------------------------------ machine integers

  const TWO_32: int := 0x1_0000_0000
  const TWO_64: int := 0x1_0000_0000_0000_0000

  /** The low 32 bits of a number, signed. */
  function Int32(x: int): (r: int)
    ensures -TWO_32 / 2 <= r < TWO_32 / 2 &&
            (r - x) % TWO_32 == 0
    ensures -TWO_32 / 2 <= x < TWO_32 / 2 ==> r == x
  {
    var low := x % TWO_32;
    if low >= TWO_32 / 2 then low - TWO_32 else low
  }

  /** The low 64 bits, signed: what a product that overflows leaves. */
  function Int64(x: int): (r: int)
    ensures -TWO_64 / 2 <= r < TWO_64 / 2 &&
            (r - x) % TWO_64 == 0
    ensures -TWO_64 / 2 <= x < TWO_64 / 2 ==> r == x
  {
    var low := x % TWO_64;
    if low >= TWO_64 / 2 then low - TWO_64 else low
  }

  /** Division that truncates towards zero. */
  function Quotient(x: int, d: int): int
    requires d > 0
  {
    if x >= 0 then x / d else -(-x / d)
  }

  // ------------------------------------------------------------ transitions

  function FlagsOf(s: Server): Flags
  {
    Flags(s.running && !s.unresolved, s.admin == Drain, s.admin == Maint)
  }

  /** Refreshes the hot-path flags. */
  function Publish(s: Server): Server
  {
    s.(flags := FlagsOf(s))
  }

  /** Ends a down period, if there is one. */
  function ComeUp(s: Server, now: int): Server
  {
    if s.running then s else s.(running := true, downtime := s.downtime + now - s.downSince)
  }

  /** A new definition's state and weight win where the configuration changed them; otherwise
      runtime changes are kept. */
  function Reconfigured(s: Server, def: Definition, now: int): Server
  {
    if s.cfgState == Unset then
      s.(admin := def.state, running := true, weight := def.weight, health := def.rise)
    else
      var s1 := s.(admin := if def.state != s.cfgState then def.state else s.admin,
                   weight := if def.weight != s.cfgWeight then def.weight else s.weight);
      Rechecked(s1, def, now)
  }

  /** Checks switched on or off bring the server up; new thresholds bound the counter. */
  function Rechecked(s: Server, def: Definition, now: int): Server
  {
    if def.checkOn && !s.checkOn then ComeUp(s.(health := def.rise), now)
    else if !def.checkOn && s.checkOn then ComeUp(s, now)
    else if def.checkOn then
      if s.running then s.(health := Max(Min(s.health, def.rise + def.fall - 1), def.rise))
      else s.(health := Min(s.health, def.rise - 1))
    else s
  }

  function AfterLoad(s: Server, def: Definition, now: int): Server
  {
    Publish(Reconfigured(s, def, now).(
      cfgState := def.state, cfgWeight := def.weight, checkOn := def.checkOn, rise := def.rise, fall := def.fall,
      unresolved := def.unresolved, checkGen := s.checkGen + 1))
  }

  /** A check result counts unless it belongs to an older configuration, checks are off, or
      the server is in maintenance. */
  predicate Counts(s: Server, gen: nat)
  {
    gen == s.checkGen && s.checkOn && s.admin != Maint
  }

  /** The health counter: 0 ... rise + fall - 1, running from rise on. */
  function CountCheck(health: int, rise: int, fall: int, ok: bool): int
  {
    if ok then
      if health < rise + fall - 1 then
        if health + 1 >= rise then rise + fall - 1 else health + 1
      else health
    else if health > rise then health - 1 else 0
  }

  function AfterCheck(s: Server, gen: nat, ok: bool, now: int): Server
  {
    if !Counts(s, gen) then s
    else
      var s1 := s.(health := CountCheck(s.health, s.rise, s.fall, ok));
      Publish(
        if ok then if s1.health >= s.rise then ComeUp(s1, now) else s1
        else if s.health > s.rise || !s.running then s1
        else s1.(running := false, downSince := now))
  }

  /** Leaving maintenance, a checked server is up but the first failed check brings it down. */
  function AfterSetAdmin(s: Server, admin: Admin, now: int): Server
  {
    if s.admin == admin then s
    else
      var s1 := s.(admin := admin);
      Publish(if s.admin == Maint && s.checkOn then ComeUp(s1.(health := s.rise), now) else s1)
  }

  function AfterForceHealth(s: Server, up: bool, now: int): Server
  {
    Publish(
      if s.running == up then s
      else if up then ComeUp(s, now).(health := s.rise + s.fall - 1)
      else s.(running := false, downSince := now, health := 0))
  }

  function After(s: Server, ev: Event): Server
  {
    match ev
    case Load(def, at) => AfterLoad(s, def, at)
    case Check(gen, ok, at) => AfterCheck(s, gen, ok, at)
    case SetAdmin(admin, at) => AfterSetAdmin(s, admin, at)
    case ForceHealth(up, at) => AfterForceHealth(s, up, at)
    case SetWeight(weight, _) => s.(weight := Int32(weight))
  }

  /** The events after which the backend's version is bumped. */
  predicate Bumps(s: Server, ev: Event)
  {
    match ev
    case Load(_, _) => true
    case Check(gen, ok, at) => AfterCheck(s, gen, ok, at).running != s.running
    case SetAdmin(admin, _) => admin != s.admin
    case ForceHealth(up, _) => up != s.running
    case SetWeight(weight, _) => weight != s.weight
  }

  function Run(s: Server, evs: seq<Event>): Server
  {
    if evs == [] then s else After(Run(s, evs[..|evs| - 1]), evs[|evs| - 1])
  }

  /** What the program's own callers guarantee: a definition is valid, and an admin command
      names one of the three states. */
  predicate ValidEvent(ev: Event)
  {
    (ev.Load? ==> ev.def.Valid()) && (ev.SetAdmin? ==> ev.admin != Unset)
  }

  // ------------------------------------------------------------ invariant

  /** A server some configuration was applied to: its flags are published, and while it is
      checked its counter is in range and decides whether it runs. */
  predicate Sound(s: Server)
  {
    s.cfgState != Unset &&
    s.admin != Unset &&
    s.rise >= 1 &&
    s.fall >= 1 &&
    s.flags == FlagsOf(s) &&
    s.weight == Int32(s.weight) &&
    (s.checkOn ==> 0 <= s.health <= s.rise + s.fall - 1 && (s.running <==> s.health >= s.rise))
  }

  lemma EventKeepsSound(s: Server, ev: Event)
    requires ValidEvent(ev) && (Sound(s) || ev.Load?)
    requires s.cfgState == Unset || Sound(s)
    ensures Sound(After(s, ev))
  {
  }

  /** In every state of every run that starts with a load, a checked server's counter is in
      0 ... rise + fall - 1 and the server runs exactly from rise on. */
  lemma RunIsSound(evs: seq<Event>)
    requires evs != [] && evs[0].Load? && forall ev :: ev in evs ==> ValidEvent(ev)
    ensures forall n :: 1 <= n <= |evs| ==> Sound(Run(FRESH, evs[..n]))
  {
    hide Sound;
    for n := 1 to |evs| + 1
      invariant forall k :: 1 <= k < n ==> Sound(Run(FRESH, evs[..k]))
    {
      var last := evs[n - 1];
      assert evs[..n][..n - 1] == evs[..n - 1] && last in evs;
      EventKeepsSound(Run(FRESH, evs[..n - 1]), last);
    }
  }

  /** An event that does not bump the version leaves everything the balancer reads alone. */
  lemma SilentEventsChangeNothing(s: Server, ev: Event)
    requires Sound(s) && !Bumps(s, ev)
    ensures After(s, ev).flags == s.flags && After(s, ev).weight == s.weight
  {
  }

  /** Events bump the version exactly if they load a configuration, change whether the server
      runs or its admin state, or set a weight that is not the one stored. */
  lemma BumpsAreChanges(s: Server, ev: Event)
    requires Sound(s)
    ensures var t := After(s, ev);
            Bumps(s, ev) <==> ev.Load? || t.running != s.running || t.admin != s.admin || (ev.SetWeight? && ev.weight != s.weight)
  {
  }

  // ------------------------------------------------------------ what the balancer may use

  /** In every state of every run that starts with a load, the balancer may use a server exactly
      if it runs, its address is resolved, it is in neither drain nor maintenance, and its weight
      is positive. */
  lemma UsableExactly(evs: seq<Event>)
    requires evs != [] && evs[0].Load? && forall ev :: ev in evs ==> ValidEvent(ev)
    ensures var s := Run(FRESH, evs);
            UsableLB(s.flags, s.weight) <==> s.running && !s.unresolved && s.admin == Ready && s.weight > 0
  {
    RunIsSound(evs);
    assert evs[..|evs|] == evs;
  }

  /** A server set to drain or maintenance is out of use until another admin command, or a load
      of a configuration that changes its state. */
  lemma {:induction false} SetAsideStaysOut(s: Server, admin: Admin, at: int, evs: seq<Event>)
    requires Sound(s) && (admin == Drain || admin == Maint)
    requires forall ev :: ev in evs ==> ValidEvent(ev) && !ev.SetAdmin? && (ev.Load? ==> ev.def.state == s.cfgState)
    ensures var t := Run(AfterSetAdmin(s, admin, at), evs);
            t.admin == admin && t.cfgState == s.cfgState && Sound(t) && !UsableLB(t.flags, t.weight)
  {
    hide Sound, ValidEvent, After, AfterSetAdmin;
    if evs == [] {
      SetAside(s, admin, at);
    } else {
      var init, last := evs[..|evs| - 1], evs[|evs| - 1];
      assert last in evs && forall ev :: ev in init ==> ev in evs;
      SetAsideStaysOut(s, admin, at, init);
      StaysAside(Run(AfterSetAdmin(s, admin, at), init), last);
    }
  }

  lemma SetAside(s: Server, admin: Admin, at: int)
    requires Sound(s) && (admin == Drain || admin == Maint)
    ensures var t := AfterSetAdmin(s, admin, at);
            t.admin == admin && t.cfgState == s.cfgState && Sound(t) && !UsableLB(t.flags, t.weight)
  {
  }

  lemma StaysAside(s: Server, ev: Event)
    requires Sound(s) && (s.admin == Drain || s.admin == Maint)
    requires ValidEvent(ev) && !ev.SetAdmin? && (ev.Load? ==> ev.def.state == s.cfgState)
    ensures var t := After(s, ev);
            t.admin == s.admin && t.cfgState == s.cfgState && Sound(t) && !UsableLB(t.flags, t.weight)
  {
    EventKeepsSound(s, ev);
  }

  /** A server of the first configuration is as it says, and up; the first failed check brings
      it down. */
  lemma FirstLoad(def: Definition, at: int, later: int)
    requires def.Valid()
    ensures var t := AfterLoad(FRESH, def, at);
            Sound(t) && t.running && t.admin == def.state && t.weight == def.weight && t.downtime == 0 &&
            (UsableLB(t.flags, t.weight) <==> !def.unresolved && def.state == Ready && def.weight > 0) &&
            (t.checkOn && t.admin != Maint ==> !AfterCheck(t, t.checkGen, false, later).running)
  {
  }

  // ------------------------------------------------------------ hysteresis

  /** The last n of the results are all equal to ok. */
  predicate AllLast(rs: seq<bool>, n: int, ok: bool)
  {
    n <= |rs| && forall i :: |rs| - n <= i < |rs| && 0 <= i ==> rs[i] == ok
  }

  /** The detector the counter stands for: down after fall failures in a row, up after rise
      successes in a row. past is what it had seen before. */
  function Detect(up: bool, past: seq<bool>, rs: seq<bool>, rise: int, fall: int): bool
  {
    if rs == [] then up
    else if Detect(up, past, rs[..|rs| - 1], rise, fall) then !AllLast(past + rs, fall, false)
    else AllLast(past + rs, rise, true)
  }

  /** The failures (successes) a running (down) server's counter has already counted. */
  function Past(health: int, rise: int, fall: int): (past: seq<bool>)
    requires 0 <= health <= rise + fall - 1
  {
    if health >= rise then seq(rise + fall - 1 - health, _ => false) else seq(health, _ => true)
  }

  function RunChecks(health: int, rise: int, fall: int, rs: seq<bool>): int
  {
    if rs == [] then health else CountCheck(RunChecks(health, rise, fall, rs[..|rs| - 1]), rise, fall, rs[|rs| - 1])
  }

  /** How many results at the end equal ok. */
  function Streak(rs: seq<bool>, ok: bool): nat
  {
    if rs == [] || rs[|rs| - 1] != ok then 0 else Streak(rs[..|rs| - 1], ok) + 1
  }

  lemma {:induction false} StreakIsAllLast(rs: seq<bool>, n: int, ok: bool)
    requires n >= 0
    ensures AllLast(rs, n, ok) <==> Streak(rs, ok) >= n
    ensures Streak(rs, ok) <= |rs|
    decreases |rs|
  {
    if rs != [] {
      var init := rs[..|rs| - 1];
      StreakIsAllLast(init, if n > 0 then n - 1 else 0, ok);
      if n > 0 && rs[|rs| - 1] == ok && AllLast(init, n - 1, ok) {
        assert forall i :: |rs| - n <= i < |rs| - 1 && 0 <= i ==> rs[i] == init[i];
      }
      if n > 0 && AllLast(rs, n, ok) {
        assert rs[|rs| - 1] == ok;
        assert forall i :: |init| - (n - 1) <= i < |init| && 0 <= i ==> init[i] == rs[i];
      }
    }
  }

  lemma {:induction false} StreakOfSame(n: nat, ok: bool)
    ensures Streak(seq(n, _ => ok), ok) == n &&
            Streak(seq(n, _ => ok), !ok) == 0
  {
    if n > 0 {
      StreakOfSame(n - 1, ok);
      assert seq(n, _ => ok)[..n - 1] == seq(n - 1, _ => ok);
    }
  }

  /** The counter simulates the detector, from every counter value and over every sequence of
      results: it also remembers exactly the current streak. */
  lemma {:induction false} CounterDetects(health: int, rise: int, fall: int, rs: seq<bool>)
    requires rise >= 1 && fall >= 1 && 0 <= health <= rise + fall - 1
    ensures var h := RunChecks(health, rise, fall, rs);
            var seen := Past(health, rise, fall) + rs;
            0 <= h <= rise + fall - 1 &&
            (h >= rise <==> Detect(health >= rise, Past(health, rise, fall), rs, rise, fall)) &&
            (if h >= rise then h == rise + fall - 1 - Streak(seen, false) else h == Streak(seen, true))
    decreases |rs|
  {
    var past := Past(health, rise, fall);
    if rs == [] {
      assert past + rs == past;
      StreakOfSame(|past|, health < rise);
    } else {
      var init, seen := rs[..|rs| - 1], past + rs;
      CounterDetects(health, rise, fall, init);
      assert seen[..|seen| - 1] == past + init;
      StreakIsAllLast(seen, fall, false);
      StreakIsAllLast(seen, rise, true);
    }
  }

  function Checks(gen: nat, rs: seq<bool>, ats: seq<int>): (evs: seq<Event>)
    requires |ats| == |rs|
    ensures |evs| == |rs|
  {
    seq(|rs|, i requires 0 <= i < |rs| => Check(gen, rs[i], ats[i]))
  }

  /** Between other events, check results take a checked server down after fall failures in a
      row and up after rise successes in a row, and nothing else changes whether it runs. */
  lemma {:induction false} ChecksDetect(s: Server, rs: seq<bool>, ats: seq<int>)
    requires Sound(s) && s.checkOn && s.admin != Maint && |ats| == |rs|
    ensures var t := Run(s, Checks(s.checkGen, rs, ats));
            Sound(t) &&
            t.checkOn &&
            t.admin == s.admin &&
            t.checkGen == s.checkGen &&
            t.rise == s.rise && t.fall == s.fall &&
            t.health == RunChecks(s.health, s.rise, s.fall, rs) &&
            t.running == Detect(s.running, Past(s.health, s.rise, s.fall), rs, s.rise, s.fall)
    decreases |rs|
  {
    hide Detect, Past, Sound, After, CountCheck;
    SoundCounter(s);
    CounterDetects(s.health, s.rise, s.fall, rs);
    if rs != [] {
      var n := |rs| - 1;
      var evs := Checks(s.checkGen, rs, ats);
      ChecksDetect(s, rs[..n], ats[..n]);
      assert evs[..n] == Checks(s.checkGen, rs[..n], ats[..n]);
      CountedCheck(Run(s, evs[..n]), rs[n], ats[n]);
      SoundCounter(Run(s, evs));
    }
  }

  lemma SoundCounter(s: Server)
    requires Sound(s) && s.checkOn
    ensures s.rise >= 1 && s.fall >= 1 && 0 <= s.health <= s.rise + s.fall - 1 && (s.running <==> s.health >= s.rise)
  {
  }

  /** A check result that counts moves the counter and changes nothing about the checks. */
  lemma CountedCheck(s: Server, ok: bool, at: int)
    requires Sound(s) && s.checkOn && s.admin != Maint
    ensures var t := After(s, Check(s.checkGen, ok, at));
            Sound(t) && t.checkOn && t.admin == s.admin && t.checkGen == s.checkGen && t.rise == s.rise && t.fall == s.fall &&
            t.health == CountCheck(s.health, s.rise, s.fall, ok)
  {
    EventKeepsSound(s, Check(s.checkGen, ok, at));
  }

  // ------------------------------------------------------------ what the other events mean

  /** On a reload the configuration wins where it changed and runtime changes stay where it did
      not; results of checks that were under way no longer count. */
  lemma ReloadMerges(s: Server, def: Definition, at: int, ok: bool, later: int)
    requires Sound(s) && def.Valid()
    ensures var t := AfterLoad(s, def, at);
            t.admin == (if def.state == s.cfgState then s.admin else def.state) &&
            t.weight == (if def.weight == s.cfgWeight then s.weight else def.weight) &&
            (if def.checkOn == s.checkOn then t.running == s.running else t.running) &&
            AfterCheck(t, s.checkGen, ok, later) == t
  {
  }

  /** What a reload does to the counter: checks that are switched on start over, up and with the
      first failure bringing the server down; a checked server keeps its counter as far as the new
      thresholds have room for it. */
  lemma ReloadKeepsCounter(s: Server, def: Definition, at: int, later: int)
    requires Sound(s) && def.Valid() && def.checkOn
    ensures var t := AfterLoad(s, def, at);
            if !s.checkOn then t.running && (t.admin != Maint ==> !AfterCheck(t, t.checkGen, false, later).running)
            else
              && t.running == s.running
              && ((if s.running then def.rise <= s.health <= def.rise + def.fall - 1 else s.health < def.rise) ==> t.health == s.health)
              && (s.running && s.health > def.rise + def.fall - 1 ==> t.health == def.rise + def.fall - 1)
              && (s.running && s.health < def.rise ==> t.health == def.rise)
              && (!s.running && s.health >= def.rise ==> t.health == def.rise - 1)
  {
  }

  /** Loading the definition that is in force changes nothing else. */
  lemma ReloadOfSame(s: Server, def: Definition, at: int)
    requires Sound(s) && def.Valid()
    requires def == Definition(s.cfgState, s.cfgWeight, s.checkOn, s.rise, s.fall, s.unresolved)
    ensures AfterLoad(s, def, at) == s.(checkGen := s.checkGen + 1)
  {
  }

  /** In maintenance checks do not count; leaving it, a checked server is up and the first failed
      check brings it down. */
  lemma LeavingMaintenance(s: Server, admin: Admin, at: int, ok: bool)
    requires Sound(s) && s.admin == Maint && admin != Maint
    ensures AfterCheck(s, s.checkGen, ok, at) == s
    ensures s.checkOn ==>
              var t := AfterSetAdmin(s, admin, at); t.running && !AfterCheck(t, t.checkGen, false, at).running
  {
  }

  /** Any other admin change of a server changes that state alone, and with it whether the server
      is used: it neither brings a server up nor forgets results of its checks. */
  lemma AdminChangeIsAll(s: Server, admin: Admin, at: int)
    requires Sound(s) && admin != Unset && (s.admin != Maint || admin == Maint || !s.checkOn)
    ensures var t := AfterSetAdmin(s, admin, at);
            t == s.(admin := admin, flags := t.flags) &&
            (UsableLB(t.flags, t.weight) <==> s.running && !s.unresolved && admin == Ready && s.weight > 0)
  {
  }

  /** A server forced up goes down after fall more failures, one forced down comes up after rise
      more successes, and no sooner. */
  lemma ForcedHealth(s: Server, up: bool, at: int, k: nat)
    requires Sound(s) && s.running != up
    ensures var t := AfterForceHealth(s, up, at);
            t.running == up &&
            (RunChecks(t.health, t.rise, t.fall, Repeat(k, !up)) >= t.rise <==> if up then k < s.fall else k >= s.rise)
  {
    var t := AfterForceHealth(s, up, at);
    RepeatedChecks(t.health, t.rise, t.fall, k, !up);
  }

  // ------------------------------------------------------------ status

  /** The status string of show stat; the numbers are its fraction. */
  datatype Status =
    | MaintStatus
    | DrainGoingDown(n: int, of: int) | DrainStatus
    | NoCheck
    | UpGoingDown(n: int, of: int) | UpStatus
    | DownGoingUp(n: int, of: int) | DownStatus

  function StatusOf(s: Server): Status
  {
    if s.admin == Maint then MaintStatus
    else if s.running && !s.unresolved then
      var goingDown := s.checkOn && s.health < s.rise + s.fall - 1;
      if s.admin == Drain && goingDown then DrainGoingDown(s.health - s.rise + 1, s.fall)
      else if s.admin == Drain then DrainStatus
      else if !s.checkOn then NoCheck
      else if goingDown then UpGoingDown(s.health - s.rise + 1, s.fall)
      else UpStatus
    else if s.checkOn && s.health > 0 && !s.unresolved then DownGoingUp(s.health, s.rise)
    else DownStatus
  }

  function Repeat(n: nat, ok: bool): (rs: seq<bool>)
    ensures |rs| == n
  {
    seq(n, _ => ok)
  }

  lemma {:induction false} RepeatedChecks(health: int, rise: int, fall: int, n: nat, ok: bool)
    requires rise >= 1 && fall >= 1 && 0 <= health <= rise + fall - 1
    ensures var h := RunChecks(health, rise, fall, Repeat(n, ok));
            if ok then
              (health >= rise || n >= rise - health ==> h >= rise) &&
              (health < rise && n < rise - health ==> h == health + n)
            else
              (health >= rise && n <= health - rise ==> h == health - n) &&
              (n > health - rise ==> h < rise)
  {
    if n > 0 {
      RepeatedChecks(health, rise, fall, n - 1, ok);
      assert Repeat(n, ok)[..n - 1] == Repeat(n - 1, ok);
    }
  }

  /** The fractions of the status string are proper, and say what they seem to: UP n/fall goes
      down with the n-th more failure in a row and no sooner; DOWN n/rise comes up with the
      (rise - n)-th more success. */
  lemma StatusFractions(s: Server, k: nat)
    requires Sound(s)
    ensures var st := StatusOf(s);
            (st.UpGoingDown? || st.DrainGoingDown?) ==>
              1 <= st.n <= st.of - 1 && st.of == s.fall &&
              (RunChecks(s.health, s.rise, s.fall, Repeat(k, false)) >= s.rise <==> k < st.n)
    ensures var st := StatusOf(s);
            st.DownGoingUp? ==>
              1 <= st.n <= st.of - 1 && st.of == s.rise &&
              (RunChecks(s.health, s.rise, s.fall, Repeat(k, true)) >= s.rise <==> k >= st.of - st.n)
  {
    if s.checkOn {
      RepeatedChecks(s.health, s.rise, s.fall, k, false);
      RepeatedChecks(s.health, s.rise, s.fall, k, true);
    }
  }

  /** What the names of the status string say: in maintenance; out of use in drain; in use as far
      as its state goes, with or without checks; or down. Without a fraction a checked server that
      is up stands as many failures as it ever does, and one that is down has seen no success. */
  lemma StatusNames(s: Server)
    requires Sound(s)
    ensures var st := StatusOf(s);
            (st.MaintStatus? <==> s.admin == Maint) &&
            (st.DrainStatus? || st.DrainGoingDown? <==> s.flags == Flags(true, true, false)) &&
            (st.NoCheck? || st.UpStatus? || st.UpGoingDown? <==> s.flags == Flags(true, false, false)) &&
            (st.DownStatus? || st.DownGoingUp? <==> !s.flags.up && s.admin != Maint)
    ensures StatusOf(s).NoCheck? ==> !s.checkOn
    ensures StatusOf(s).UpStatus? || (StatusOf(s).DrainStatus? && s.checkOn) ==> s.health == s.rise + s.fall - 1 && s.checkOn
    ensures StatusOf(s).DownStatus? && s.checkOn && !s.unresolved ==> s.health == 0
  {
  }

  // ------------------------------------------------------------ downtime

  /** The downtime show stat reports at an instant. */
  function DowntimeAt(s: Server, now: int): int
  {
    s.downtime + if s.running then 0 else now - s.downSince
  }

  /** Time a run spends down between an instant and a later one: the sum over its events. */
  function TimeDown(s: Server, evs: seq<Event>, from: int, until: int): int
  {
    if evs == [] then if s.running then 0 else until - from
    else
      var last := evs[|evs| - 1];
      TimeDown(s, evs[..|evs| - 1], from, last.at) + if Run(s, evs).running then 0 else until - last.at
  }

  /** The downtime counter accounts for every down period once: over every run it grows by
      exactly the time spent down. */
  lemma {:induction false} DowntimeIsTimeDown(s: Server, evs: seq<Event>, from: int, until: int)
    requires s.cfgState != Unset && forall ev :: ev in evs ==> ValidEvent(ev)
    ensures Run(s, evs).cfgState != Unset
    ensures DowntimeAt(Run(s, evs), until) == DowntimeAt(s, from) + TimeDown(s, evs, from, until)
    decreases |evs|
  {
    hide After, DowntimeAt, ValidEvent;
    if evs != [] {
      var init, last := evs[..|evs| - 1], evs[|evs| - 1];
      assert last in evs && forall ev :: ev in init ==> ev in evs;
      DowntimeIsTimeDown(s, init, from, last.at);
      DowntimeStep(Run(s, init), last, until);
    } else {
      NothingHappens(s, from, until);
    }
  }

  lemma NothingHappens(s: Server, from: int, until: int)
    ensures DowntimeAt(Run(s, []), until) == DowntimeAt(s, from) + TimeDown(s, [], from, until)
  {
  }

  /** One event: the time down until it is accounted for, and what follows counts from it. */
  lemma DowntimeStep(s: Server, ev: Event, until: int)
    requires s.cfgState != Unset && ValidEvent(ev)
    ensures var t := After(s, ev); t.cfgState != Unset && Accounted(s, t, ev.at, until)
  {
    hide AfterLoad, AfterCheck, Accounted;
    match ev
    case Load(def, at) => LoadAccounted(s, def, at, until);
    case Check(gen, ok, at) => CheckAccounted(s, gen, ok, at, until);
    case _ => OtherAccounted(s, ev, until);
  }

  predicate Accounted(s: Server, t: Server, at: int, until: int)
  {
    DowntimeAt(t, until) == DowntimeAt(s, at) + if t.running then 0 else until - at
  }

  lemma LoadAccounted(s: Server, def: Definition, at: int, until: int)
    requires s.cfgState != Unset && def.Valid()
    ensures AfterLoad(s, def, at).cfgState != Unset && Accounted(s, AfterLoad(s, def, at), at, until)
  {
  }

  lemma CheckAccounted(s: Server, gen: nat, ok: bool, at: int, until: int)
    requires s.cfgState != Unset
    ensures AfterCheck(s, gen, ok, at).cfgState != Unset && Accounted(s, AfterCheck(s, gen, ok, at), at, until)
  {
    hide CountCheck;
  }

  lemma OtherAccounted(s: Server, ev: Event, until: int)
    requires s.cfgState != Unset && !ev.Load? && !ev.Check?
    ensures After(s, ev).cfgState != Unset && Accounted(s, After(s, ev), ev.at, until)
  {
  }

  // ------------------------------------------------------------ the objects

  /** A backend's change counter. */
  class BeState {
    var version: nat

    constructor ()
      ensures version == 0
    {
      version := 0;
    }

    method Changed()
      modifies this
      ensures version == old(version) + 1
    {
      version := version + 1;
    }
  }

  class SrvState {
    const be: BeState
    var flags: Flags
    var weight: int
    var cfgState: Admin
    var cfgWeight: int
    var checkOn: bool
    var rise: int
    var fall: int
    var checkGen: nat
    var unresolved: bool
    var admin: Admin
    var running: bool
    var health: int
    var downSince: int
    var downtime: int
    var scur: int // sessions being served

    function View(): Server
      reads this
    {
      Server(flags, weight, cfgState, cfgWeight, checkOn, rise, fall, checkGen, unresolved,
             admin, running, health, downSince, downtime)
    }

    predicate Usable()
      reads this
    {
      UsableLB(flags, weight)
    }

    constructor (be: BeState)
      ensures this.be == be && View() == FRESH && scur == 0
    {
      this.be := be;
      flags, weight := Flags(false, false, false), 0;
      cfgState, cfgWeight, checkOn, rise, fall, checkGen, unresolved := Unset, 0, false, 0, 0, 0, false;
      admin, running, health, downSince, downtime, scur := Unset, false, 0, 0, 0, 0;
    }

    method PublishLocked()
      modifies this`flags
      ensures View() == Publish(old(View()))
    {
      flags := Flags(running && !unresolved, admin == Drain, admin == Maint);
    }

    /** Ends a down period, if there is one. */
    method ComeUpLocked(now: int)
      modifies this`running, this`downtime
      ensures View() == ComeUp(old(View()), now)
    {
      if !running {
        running := true;
        downtime := downtime + now - downSince;
      }
    }

    /** The part of a reload that weighs the new definition against the previous one. */
    method Reconfigure(def: Definition, now: int)
      modifies this`admin, this`weight, this`health, this`running, this`downtime
      ensures View() == Reconfigured(old(View()), def, now)
    {
      hide Rechecked;
      if cfgState == Unset {
        admin, running := def.state, true;
        weight := def.weight;
        health := def.rise;
        return;
      }
      if def.state != cfgState {
        admin := def.state;
      }
      if def.weight != cfgWeight {
        weight := def.weight;
      }
      Recheck(def, now);
    }

    method Recheck(def: Definition, now: int)
      modifies this`health, this`running, this`downtime
      ensures View() == Rechecked(old(View()), def, now)
    {
      if def.checkOn && !checkOn {
        health := def.rise;
        ComeUpLocked(now);
      } else if !def.checkOn && checkOn {
        ComeUpLocked(now);
      } else if def.checkOn {
        if running {
          health := Max(Min(health, def.rise + def.fall - 1), def.rise);
        } else {
          health := Min(health, def.rise - 1);
        }
      }
    }

    /** The caller bumps the version once all of a backend's servers are loaded. */
    method ApplyConfig(def: Definition, now: int)
      modifies this
      ensures View() == After(old(View()), Load(def, now)) && scur == old(scur)
    {
      hide Reconfigured, Publish;
      Reconfigure(def, now);
      cfgState, cfgWeight := def.state, def.weight;
      checkOn, rise, fall := def.checkOn, def.rise, def.fall;
      unresolved := def.unresolved;
      checkGen := checkGen + 1;
      PublishLocked();
    }

    method CheckResult(gen: nat, ok: bool, now: int)
      modifies this`flags, this`health, this`running, this`downtime, this`downSince, be
      ensures View() == After(old(View()), Check(gen, ok, now))
      ensures be.version == old(be.version) + if Bumps(old(View()), Check(gen, ok, now)) then 1 else 0
    {
      if gen != checkGen || !checkOn || admin == Maint {
        return;
      }
      var change;
      if ok {
        change := Pass(now);
      } else {
        change := Fail(now);
      }
      PublishLocked();
      if change {
        be.Changed();
      }
    }

    method Pass(now: int) returns (change: bool)
      modifies this`health, this`running, this`downtime
      ensures var was, counted := old(View()), CountCheck(old(health), rise, fall, true);
              View() == (if counted >= rise then ComeUp(was.(health := counted), now) else was.(health := counted)) &&
              (change <==> running != old(running))
    {
      if health < rise + fall - 1 {
        health := health + 1;
        if health >= rise {
          health := rise + fall - 1;
        }
      }
      change := false;
      if !running && health >= rise {
        ComeUpLocked(now);
        change := true;
      }
    }

    method Fail(now: int) returns (change: bool)
      modifies this`health, this`running, this`downSince
      ensures var was, counted := old(View()), CountCheck(old(health), rise, fall, false);
              View() == (if old(health) > rise || !old(running) then was.(health := counted)
                         else was.(health := counted, running := false, downSince := now)) &&
              (change <==> running != old(running))
    {
      change := false;
      if health > rise {
        health := health - 1;
      } else {
        health := 0;
        if running {
          running, downSince := false, now;
          change := true;
        }
      }
    }

    method SetAdminState(state: Admin, now: int)
      modifies this`flags, this`admin, this`health, this`running, this`downtime, be
      ensures View() == After(old(View()), SetAdmin(state, now))
      ensures be.version == old(be.version) + if Bumps(old(View()), SetAdmin(state, now)) then 1 else 0
    {
      var prev := admin;
      if prev == state {
        return;
      }
      admin := state;
      if prev == Maint && checkOn {
        health := rise;
        ComeUpLocked(now);
      }
      PublishLocked();
      be.Changed();
    }

    method ForceHealthState(up: bool, now: int)
      modifies this`flags, this`health, this`running, this`downtime, this`downSince, be
      ensures View() == After(old(View()), ForceHealth(up, now))
      ensures be.version == old(be.version) + if Bumps(old(View()), ForceHealth(up, now)) then 1 else 0
    {
      var changed := running != up;
      if changed {
        running := up;
        if up {
          downtime := downtime + now - downSince;
          health := rise + fall - 1;
        } else {
          downSince, health := now, 0;
        }
      }
      PublishLocked();
      if changed {
        be.Changed();
      }
    }

    method SetUserWeight(w: int, now: int)
      modifies this`weight, be
      ensures View() == After(old(View()), SetWeight(w, now))
      ensures be.version == old(be.version) + if Bumps(old(View()), SetWeight(w, now)) then 1 else 0
    {
      var previous := weight;
      weight := Int32(w);
      if previous != w {
        be.Changed();
      }
    }
  }

  // ------------------------------------------------------------ weight commands

  /** The number n of a weight command, or n% of the initial weight: what it sets the weight to,
      if it is accepted. */
  function CommandWeight(n: int, relative: bool, initial: int): Option<int>
  {
    if relative then
      if n < 0 then None else Some(Min(Quotient(Int64(initial * n), 100), 256))
    else if n < 0 || n > 256 then None
    else Some(n)
  }

  /** A command is refused exactly if its number is negative or an absolute weight over 256. An
      accepted weight is stored as it is meant, at most 256, as long as the product of a relative
      one fits 64 bits. Beyond, the product wraps: then the stored weight is in 0 .. 256 exactly
      if the wrapped product is above -100 or the low 32 bits of its hundredth are at most 256. */
  lemma StoredWeight(n: int, relative: bool, initial: int)
    requires -TWO_64 / 2 <= n < TWO_64 / 2 && 0 <= initial <= 256
    ensures var w, product := CommandWeight(n, relative, initial), Int64(initial * n);
            (w == None <==> n < 0 || (!relative && n > 256)) &&
            (w.Some? && !relative ==> Int32(w.value) == n <= 256) &&
            (w.Some? && relative ==>
               && (initial * n < TWO_64 / 2 ==> Int32(w.value) == Min(initial * n / 100, 256))
               && (0 <= Int32(w.value) <= 256 <==> product > -100 || Quotient(product, 100) % TWO_32 <= 256))
  {
    if relative && n >= 0 {
      ProductNotNegative(initial, n);
      WrappedWeight(Int64(initial * n));
    }
  }

  lemma WrappedWeight(product: int)
    requires -TWO_64 / 2 <= product < TWO_64 / 2
    ensures var w := Min(Quotient(product, 100), 256);
            (product >= 0 ==> Int32(w) == w == Min(product / 100, 256)) &&
            (0 <= Int32(w) <= 256 <==> product > -100 || Quotient(product, 100) % TWO_32 <= 256)
  {
  }

  /** Two commands, with an initial weight of 100, that are accepted and store a weight out of
      range: a product that wraps to -100, and one that wraps to a number of which 7699 is left. */
  lemma OverflowedWeights()
    ensures CommandWeight(9223372036854775807, true, 100) == Some(-1) && Int32(-1) == -1
    ensures CommandWeight(92233722430139759, true, 100).Some? &&
            Int32(CommandWeight(92233722430139759, true, 100).value) == 7699
  {
    assert 100 * 9223372036854775807 == 49 * TWO_64 + (TWO_64 - 100);
    assert Int64(100 * 9223372036854775807) == -100;
    var x := 100 * 92233722430139759;
    assert x == 9223372243013975900 && Int64(x) == x - TWO_64 == -9223371830695575716;
    assert Quotient(x - TWO_64, 100) == -92233718306955757;
    assert -92233718306955757 == -21474836 * TWO_32 + 7699;
  }
}
