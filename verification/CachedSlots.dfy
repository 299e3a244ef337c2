/**
  The two views of the hash map (internal/balancer/lb.go): HashCache keeps it as positions of
  servers whose flags and weights change step by step, Backend as the server objects of one
  moment. In a moment where both see the same states they are the same map, so the cache of any
  run is what the sequential selection requires of it.
 */
module CachedSlots {
  import opened Backend
  import opened HashCache
  import RoundRobin

  /** The cells hold what the servers of a list have published. */
  ghost predicate Mirrors(list: seq<Member>, servers: seq<Cell>)
    reads States(list)
  {
    |servers| == |list| && forall i :: 0 <= i < |list| ==> servers[i] == CellOf(list[i])
  }

  function CellOf(s: Member): Cell
    reads s.st
  {
    Cell(s.st.flags, s.st.weight)
  }

  ghost predicate InList(list: seq<Member>, positions: seq<nat>)
  {
    forall k :: 0 <= k < |positions| ==> positions[k] < |list|
  }

  /** The servers at some positions. */
  ghost function MembersAt(list: seq<Member>, positions: seq<nat>): (ms: seq<Member>)
    requires InList(list, positions)
    ensures |ms| == |positions|
  {
    seq(|positions|, k requires 0 <= k < |positions| => list[positions[k]])
  }

  /** Entry k of the cells is usable server k of the list. */
  ghost predicate SameEntry(list: seq<Member>, e: Entry, s: Member, w: int)
  {
    e.server < |list| && list[e.server] == s && e.weight == w
  }

  lemma {:induction false} EntriesAreUsable(list: seq<Member>, servers: seq<Cell>, n: nat)
    requires Mirrors(list, servers) && n <= |list|
    ensures |Entries(servers, n)| == |UsableOf(list[..n])|
    ensures forall k :: 0 <= k < |Entries(servers, n)| ==>
              SameEntry(list, Entries(servers, n)[k], UsableOf(list[..n])[k], UsableWeights(list[..n])[k])
  {
    if n > 0 {
      EntriesAreUsable(list, servers, n - 1);
      var init, m := list[..n - 1], list[n - 1];
      assert list[..n][..n - 1] == init && list[..n][n - 1] == m;
      assert servers[n - 1] == CellOf(m);
    }
  }

  /** One round over entries and over servers, position by position. */
  lemma RoundsAgree(list: seq<Member>, ents: seq<Entry>, us: seq<Member>, ws: RoundRobin.Weights)
    requires |ents| == |us| == |ws| && Positive(ents)
    requires forall k :: 0 <= k < |ents| ==> SameEntry(list, ents[k], us[k], ws[k])
    ensures EntryWeights(ents) == ws &&
            |Round(ents)| == RoundRobin.Total(ws)
    ensures forall t :: 0 <= t < |Round(ents)| ==> us != [] && Round(ents)[t] < |list| && list[Round(ents)[t]] == SlotOf(us, ws, t)
  {
    hide RoundRobin.Pick;
    assert EntryWeights(ents) == ws;
    RoundRobin.SumOfNothing(ws);
    if ents == [] { assert RoundRobin.Sum(ws) == 0; }
    forall t | 0 <= t < |Round(ents)|
      ensures us != [] && Round(ents)[t] < |list| && list[Round(ents)[t]] == SlotOf(us, ws, t)
    {
      RoundRobin.SumStaysZero(ws, t);
      RoundRobin.PickIsPositive(ws, t);
    }
  }

  /** The map rebuilt from the cells is the map of the servers they mirror, and the only one. */
  lemma RebuiltIsSlots(list: seq<Member>, servers: seq<Cell>)
    requires Mirrors(list, servers)
    ensures InList(list, Rebuilt(servers))
    ensures forall slots :: SlotsFor(list, slots) <==> slots == MembersAt(list, Rebuilt(servers))
  {
    hide UsableOf, UsableWeights, Round, Entries;
    var n := |list|;
    assert list[..n] == list;
    EntriesAreUsable(list, servers, n);
    EntriesPositive(servers, n);
    RebuiltIs(servers);
    RoundsAgree(list, Entries(servers, n), UsableOf(list), UsableWeights(list));
  }

  /** In every run of lookups and changes, while no change is half done, the cached map of the
      current version is the map of the servers: what Backend.Slots, PickHash and Pick require. */
  lemma CacheServesSelection(run: seq<State>, i: nat, list: seq<Member>)
    requires IsRun(run) && i < |run| && run[i].changing == {} && Mirrors(list, run[i].servers)
    ensures run[i].cache.Some? && run[i].cache.value.ver == run[i].version ==>
              InList(list, run[i].cache.value.slots) && SlotsFor(list, MembersAt(list, run[i].cache.value.slots))
  {
    CacheIsCoherent(run, i);
    RebuiltIsSlots(list, run[i].servers);
  }
}
