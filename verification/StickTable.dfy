/**
  The stick table (internal/balancer/lb.go): client addresses mapped to server names, with an
  expiry and a size bound, the least recently stored entry going first.

  Addresses, server names and instants are opaque here: Key, a string and an integer clock.
 */
module StickTable {
  import opened Common

  type Key = int

  /** A stored entry as a value. */
  datatype Item = Item(key: Key, server: string, exp: int)

  // ------------------------------------------------------------ the table as a list

  function Keys(items: seq<Item>): set<Key>
  {
    if items == [] then {} else {items[0].key} + Keys(items[1..])
  }

  predicate Distinct(items: seq<Item>)
  {
    items == [] || (items[0].key !in Keys(items[1..]) && Distinct(items[1..]))
  }

  /** The list, most recent first, without the item of a key. */
  function Remove(items: seq<Item>, k: Key): seq<Item>
  {
    if items == [] then []
    else if items[0].key == k then items[1..]
    else [items[0]] + Remove(items[1..], k)
  }

  /** The unexpired server stored for a key. */
  function Lookup(items: seq<Item>, k: Key, now: int): Option<string>
  {
    if items == [] then None
    else if items[0].key != k then Lookup(items[1..], k, now)
    else if now > items[0].exp then None
    else Some(items[0].server)
  }

  /** Drops the last item while the list is over size or that item is expired. */
  function Evicted(items: seq<Item>, size: nat, now: int): seq<Item>
  {
    if items == [] then []
    else if |items| <= size && now <= items[|items| - 1].exp then items
    else Evicted(items[..|items| - 1], size, now)
  }

  /** A lookup drops the key's item if it is expired. */
  function AfterGet(items: seq<Item>, k: Key, now: int): seq<Item>
  {
    if k in Keys(items) && Lookup(items, k, now) == None then Remove(items, k) else items
  }

  function AfterPut(items: seq<Item>, k: Key, server: string, now: int, size: nat, expire: int): seq<Item>
  {
    var item := Item(k, server, now + expire);
    if k in Keys(items) then [item] + Remove(items, k) else Evicted([item] + items, size, now)
  }

  lemma {:induction false} KeysAt(items: seq<Item>, i: nat)
    requires i < |items|
    ensures items[i].key in Keys(items)
  {
    if i > 0 { KeysAt(items[1..], i - 1); }
  }

  lemma {:induction false} KeysHave(items: seq<Item>, k: Key) returns (i: nat)
    requires k in Keys(items)
    ensures i < |items| && items[i].key == k
  {
    if items[0].key == k {
      i := 0;
    } else {
      i := KeysHave(items[1..], k);
      i := i + 1;
    }
  }

  lemma {:induction false} DistinctByIndex(items: seq<Item>)
    requires forall i, j :: 0 <= i < j < |items| ==> items[i].key != items[j].key
    ensures Distinct(items)
  {
    if items != [] {
      var t := items[1..];
      DistinctByIndex(t);
      assert forall i :: 0 <= i < |t| ==> t[i].key != items[0].key;
      if items[0].key in Keys(t) {
        var i := KeysHave(t, items[0].key);
      }
    }
  }

  /** An item at a known position: what a lookup finds and a removal removes. */
  lemma {:induction false} ItemAt(items: seq<Item>, i: nat, now: int)
    requires Distinct(items) && i < |items|
    ensures Remove(items, items[i].key) == items[..i] + items[i + 1..]
    ensures Lookup(items, items[i].key, now) == if now > items[i].exp then None else Some(items[i].server)
    ensures items[i].key in Keys(items)
  {
    if i > 0 {
      var t := items[1..];
      assert t[i - 1] == items[i];
      KeysAt(t, i - 1);
      ItemAt(t, i - 1, now);
      WithoutTail(items, i);
    }
  }

  lemma WithoutTail(items: seq<Item>, i: nat)
    requires 0 < i < |items|
    ensures items[..i] + items[i + 1..] == [items[0]] + (items[1..][..i - 1] + items[1..][i..])
  {
  }

  lemma {:induction false} LookupAbsent(items: seq<Item>, k: Key, now: int)
    requires k !in Keys(items)
    ensures Lookup(items, k, now) == None &&
            Remove(items, k) == items
  {
    if items != [] { LookupAbsent(items[1..], k, now); }
  }

  // ------------------------------------------------------------ the object

  class Entry {
    const key: Key
    var server: string
    var exp: int

    constructor (key: Key, server: string, exp: int)
      ensures this.key == key && this.server == server && this.exp == exp
    {
      this.key, this.server, this.exp := key, server, exp;
    }

    function Value(): Item
      reads this
    {
      Item(key, server, exp)
    }
  }

  /** The map and the list hold the same entries, one per key. */
  ghost predicate Linked(m: map<Key, Entry>, ll: seq<Entry>)
  {
    (forall i :: 0 <= i < |ll| ==> ll[i].key in m && m[ll[i].key] == ll[i]) &&
    (forall i, j :: 0 <= i < j < |ll| ==> ll[i].key != ll[j].key) &&
    (forall k :: k in m ==> m[k] in ll && m[k].key == k)
  }

  lemma LinkedRemove(m: map<Key, Entry>, ll: seq<Entry>, i: nat)
    requires Linked(m, ll) && i < |ll|
    ensures Linked(m - {ll[i].key}, ll[..i] + ll[i + 1..])
  {
    var m', ll' := m - {ll[i].key}, ll[..i] + ll[i + 1..];
    forall k | k in m'
      ensures m'[k] in ll'
    {
      var j :| 0 <= j < |ll| && ll[j] == m[k];
      assert ll'[if j < i then j else j - 1] == ll[j];
    }
  }

  lemma LinkedPush(m: map<Key, Entry>, ll: seq<Entry>, e: Entry)
    requires Linked(m, ll) && e.key !in m
    ensures Linked(m[e.key := e], [e] + ll)
  {
    var m', ll' := m[e.key := e], [e] + ll;
    assert ll'[0] == e;
    forall k | k in m && k != e.key
      ensures m'[k] in ll'
    {
      var j :| 0 <= j < |ll| && ll[j] == m[k];
      assert ll'[j + 1] == ll[j];
    }
  }

  /** Where the entry at position j stood before the one at position i moved to the front. */
  function Origin(i: nat, j: nat): nat
  {
    if j == 0 then i else if j <= i then j - 1 else j
  }

  lemma ToFrontAt(ll: seq<Entry>, i: nat, j: nat)
    requires i < |ll| && j < |ll|
    ensures ([ll[i]] + ll[..i] + ll[i + 1..])[j] == ll[Origin(i, j)]
  {
  }

  lemma LinkedToFront(m: map<Key, Entry>, ll: seq<Entry>, i: nat)
    requires Linked(m, ll) && i < |ll|
    ensures Linked(m, [ll[i]] + ll[..i] + ll[i + 1..])
  {
    var ll' := [ll[i]] + ll[..i] + ll[i + 1..];
    forall j | 0 <= j < |ll'|
      ensures ll'[j] == ll[Origin(i, j)]
    {
      ToFrontAt(ll, i, j);
    }
    forall k | k in m
      ensures m[k] in ll'
    {
      var j :| 0 <= j < |ll| && ll[j] == m[k];
      var place := if j == i then 0 else if j < i then j + 1 else j;
      assert Origin(i, place) == j && ll'[place] == ll[j];
    }
    SameDistinct(ll, ll', i);
  }

  lemma SameDistinct(ll: seq<Entry>, ll': seq<Entry>, i: nat)
    requires forall j, j' :: 0 <= j < j' < |ll| ==> ll[j].key != ll[j'].key
    requires i < |ll| == |ll'| && forall j :: 0 <= j < |ll'| ==> ll'[j] == ll[Origin(i, j)]
    ensures forall j, j' :: 0 <= j < j' < |ll'| ==> ll'[j].key != ll'[j'].key
  {
  }

  lemma MovedToFront(ll: seq<Entry>, i: nat)
    requires i < |ll|
    ensures Values([ll[i]] + ll[..i] + ll[i + 1..]) == [Values(ll)[i]] + (Values(ll)[..i] + Values(ll)[i + 1..])
  {
  }

  lemma LinkedOnce(m: map<Key, Entry>, ll: seq<Entry>, i: nat)
    requires Linked(m, ll) && i < |ll|
    ensures forall j :: 0 <= j < |ll| && j != i ==> ll[j] != ll[i]
  {
  }

  ghost function Values(ll: seq<Entry>): (items: seq<Item>)
    reads ll
    ensures |items| == |ll|
  {
    seq(|ll|, i requires 0 <= i < |ll| reads ll => ll[i].Value())
  }

  lemma ValuesDistinct(m: map<Key, Entry>, ll: seq<Entry>)
    requires Linked(m, ll)
    ensures Distinct(Values(ll))
    ensures forall k :: k in m ==> m[k].key == k && m[k] in ll
  {
    DistinctByIndex(Values(ll));
  }

  /** The entry the map has for a key: where it stands, and the list without it. */
  lemma ValuesEntry(m: map<Key, Entry>, ll: seq<Entry>, k: Key, i: nat)
    requires Linked(m, ll) && k in m && i < |ll| && ll[i] == m[k]
    ensures ll[i].key == k && k in Keys(Values(ll))
    ensures Remove(Values(ll), k) == Values(ll)[..i] + Values(ll)[i + 1..]
  {
    ValuesDistinct(m, ll);
    ItemAt(Values(ll), i, 0);
  }

  lemma EntryExists(m: map<Key, Entry>, ll: seq<Entry>, k: Key)
    requires Linked(m, ll) && k in m
    ensures exists i :: 0 <= i < |ll| && ll[i] == m[k]
  {
  }

  lemma ValuesKeys(m: map<Key, Entry>, ll: seq<Entry>, k: Key)
    requires Linked(m, ll)
    ensures k in m <==> k in Keys(Values(ll))
  {
    var items := Values(ll);
    if k in Keys(items) {
      var i := KeysHave(items, k);
      assert items[i].key == ll[i].key;
    }
    if k in m {
      var i :| 0 <= i < |ll| && ll[i] == m[k];
      KeysAt(items, i);
    }
  }

  /** A map from keys to entries and a list of the same entries, most recently stored first. */
  class Table {
    var size: nat
    var expire: int
    var m: map<Key, Entry>
    var ll: seq<Entry>

    ghost predicate Valid()
      reads this
    {
      Linked(m, ll) && |ll| <= size
    }

    ghost function Contents(): (items: seq<Item>)
      reads this, ll
    {
      Values(ll)
    }

    constructor (size: nat, expire: int)
      ensures Valid() && Contents() == [] && this.size == size && this.expire == expire && ll == []
    {
      this.size, this.expire := size, expire;
      m, ll := map[], [];
    }

    /** The list without the entry at position i, and the map without its key. */
    method RemoveEntry(i: nat)
      requires i < |ll| && Linked(m, ll)
      modifies this`m, this`ll
      ensures ll == old(ll[..i] + ll[i + 1..]) && Linked(m, ll)
      ensures Contents() == old(Contents()[..i] + Contents()[i + 1..])
    {
      LinkedRemove(m, ll, i);
      hide Linked;
      m := m - {ll[i].key};
      ll := ll[..i] + ll[i + 1..];
    }

    /** An element of the list knows its own position. */
    method Get(k: Key, now: int) returns (r: Option<string>)
      requires Valid()
      modifies this`m, this`ll
      ensures Valid()
      ensures r == Lookup(old(Contents()), k, now)
      ensures Contents() == AfterGet(old(Contents()), k, now)
    {
      ValuesDistinct(m, ll);
      ValuesKeys(m, ll, k);
      hide Linked, Keys, Remove, Lookup, Distinct;
      if k !in m {
        LookupAbsent(Contents(), k, now);
        return None;
      }
      var e := m[k];
      var i :| 0 <= i < |ll| && ll[i] == e;
      ItemAt(Contents(), i, now);
      if now > e.exp {
        RemoveEntry(i);
        return None;
      }
      return Some(e.server);
    }

    /** Evicts from the back until the list fits and its last entry is not expired. */
    method EvictLocked(now: int)
      requires Linked(m, ll)
      modifies this`m, this`ll
      ensures Valid()
      ensures Contents() == Evicted(old(Contents()), size, now)
    {
      hide Linked;
      while |ll| > 0
        invariant Linked(m, ll) && ll <= old(ll)
        invariant Evicted(Contents(), size, now) == Evicted(old(Contents()), size, now)
        decreases |ll|
      {
        var n := |ll| - 1;
        if |ll| <= size && now <= ll[n].exp {
          return;
        }
        ghost var was := Contents();
        RemoveEntry(n);
        assert Contents() == was[..n];
      }
    }

    /** Stores a new server and expiry in the entry at position i. */
    method Store(i: nat, server: string, exp: int)
      requires Linked(m, ll) && i < |ll|
      modifies ll`server, ll`exp
      ensures Linked(m, ll) && ll[i].server == server && ll[i].exp == exp
      ensures Values(ll) == old(Values(ll))[i := Item(ll[i].key, server, exp)]
    {
      LinkedOnce(m, ll, i);
      var e := ll[i];
      e.server, e.exp := server, exp;
    }

    /** Stores a new server and expiry in the entry at position i and moves it to the front. */
    method Refresh(i: nat, server: string, exp: int)
      requires Valid() && i < |ll|
      modifies this`ll, ll`server, ll`exp
      ensures Valid()
      ensures Contents() == [Item(old(ll[i]).key, server, exp)] + old(Contents()[..i] + Contents()[i + 1..])
    {
      hide Linked, Values;
      LinkedToFront(m, ll, i);
      ghost var list := ll;
      var e := ll[i];
      Store(i, server, exp);
      ll := [e] + ll[..i] + ll[i + 1..];
      MovedToFront(list, i);
    }

    method Put(k: Key, server: string, now: int)
      requires Valid()
      modifies this`m, this`ll, ll`server, ll`exp
      ensures Valid()
      ensures Contents() == AfterPut(old(Contents()), k, server, now, size, expire)
    {
      hide Linked, Values, Keys, Remove, Evicted;
      ValuesKeys(m, ll, k);
      if k in m {
        EntryExists(m, ll, k);
        var i :| 0 <= i < |ll| && ll[i] == m[k];
        ValuesEntry(m, ll, k, i);
        Refresh(i, server, now + expire);
        return;
      }
      PushFront(k, server, now + expire);
      EvictLocked(now);
    }

    /** A new entry at the front. */
    method PushFront(k: Key, server: string, exp: int)
      requires Linked(m, ll) && k !in m
      modifies this`m, this`ll
      ensures Linked(m, ll)
      ensures Contents() == [Item(k, server, exp)] + old(Contents())
    {
      hide Linked;
      var e := new Entry(k, server, exp);
      LinkedPush(m, ll, e);
      m := m[k := e];
      ll := [e] + ll;
    }

    /** A reload may change the bounds. */
    method Configure(size: nat, expire: int, now: int)
      requires Valid()
      modifies this`size, this`expire, this`m, this`ll
      ensures Valid() && this.size == size && this.expire == expire
      ensures Contents() == Evicted(old(Contents()), size, now)
    {
      hide Linked;
      this.size, this.expire := size, expire;
      EvictLocked(now);
    }
  }

  // ------------------------------------------------------------ what a lookup returns

  datatype Op = Put(key: Key, server: string, at: int) | Get(key: Key, at: int)

  /** A table's contents after a history of operations, from empty. */
  function Run(h: seq<Op>, size: nat, expire: int): seq<Item>
  {
    if h == [] then []
    else
      var items := Run(h[..|h| - 1], size, expire);
      match h[|h| - 1]
      case Put(k, server, at) => AfterPut(items, k, server, at, size, expire)
      case Get(k, at) => AfterGet(items, k, at)
  }

  /** The same history in a table without bounds: one item per key ever stored, the most
      recently stored first. */
  function Ideal(h: seq<Op>, expire: int): seq<Item>
  {
    if h == [] then []
    else
      var items := Ideal(h[..|h| - 1], expire);
      match h[|h| - 1]
      case Put(k, server, at) => [Item(k, server, at + expire)] + Remove(items, k)
      case Get(_, _) => items
  }

  /** Index of the last store of a key; -1 if there is none. */
  function LastPut(h: seq<Op>, k: Key): (p: int)
    ensures -1 <= p < |h|
    ensures p >= 0 ==> h[p].Put? && h[p].key == k
    ensures forall q :: p < q < |h| ==> !(h[q].Put? && h[q].key == k)
  {
    if h == [] then -1
    else if h[|h| - 1].Put? && h[|h| - 1].key == k then |h| - 1
    else LastPut(h[..|h| - 1], k)
  }

  /** The distinct keys stored from position p on. */
  function KeysPut(h: seq<Op>, p: int): set<Key>
  {
    set q | 0 <= q < |h| && p <= q && h[q].Put? :: h[q].key
  }

  /** Instants never go back. */
  predicate Ordered(h: seq<Op>)
  {
    forall i, j :: 0 <= i < j < |h| ==> h[i].at <= h[j].at
  }

  /** The specification: the server of the key's last store, if that store is not expired and
      fewer than size distinct other keys were stored since. */
  function Expected(h: seq<Op>, k: Key, now: int, size: nat, expire: int): Option<string>
  {
    var p := LastPut(h, k);
    if p >= 0 && now <= h[p].at + expire && |KeysPut(h, p + 1)| < size then Some(h[p].server) else None
  }

  // ------------------------------------------------------------ live items

  /** Expiries do not grow towards the back and start at most at a bound. */
  predicate Sorted(items: seq<Item>, bound: int)
  {
    items == [] || (items[0].exp <= bound && Sorted(items[1..], items[0].exp))
  }

  /** The items in front of the first expired one. */
  function Live(items: seq<Item>, now: int): seq<Item>
  {
    if items == [] || now > items[0].exp then [] else [items[0]] + Live(items[1..], now)
  }

  function Take(items: seq<Item>, n: int): seq<Item>
  {
    if items == [] || n <= 0 then [] else [items[0]] + Take(items[1..], n - 1)
  }

  lemma {:induction false} SortedWeaken(items: seq<Item>, bound: int, bound': int)
    requires Sorted(items, bound) && bound <= bound'
    ensures Sorted(items, bound')
  {
  }

  lemma {:induction false} RemoveKeeps(items: seq<Item>, k: Key, bound: int)
    requires Sorted(items, bound) && Distinct(items)
    ensures Sorted(Remove(items, k), bound) && Distinct(Remove(items, k))
    ensures Keys(Remove(items, k)) == Keys(items) - {k}
    ensures |Remove(items, k)| == |items| - if k in Keys(items) then 1 else 0
  {
    if items != [] {
      if items[0].key == k {
        SortedWeaken(items[1..], items[0].exp, bound);
      } else {
        RemoveKeeps(items[1..], k, items[0].exp);
        assert ([items[0]] + Remove(items[1..], k))[1..] == Remove(items[1..], k);
      }
    }
  }

  /** In a sorted list nothing lives behind an expired item. */
  lemma SortedExpired(items: seq<Item>, bound: int, now: int)
    ensures Sorted(items, bound) && now > bound ==> Live(items, now) == []
  {
  }

  lemma {:induction false} LiveKeeps(items: seq<Item>, now: int, bound: int)
    requires Sorted(items, bound) && Distinct(items)
    ensures Sorted(Live(items, now), bound) &&
            Distinct(Live(items, now))
    ensures Keys(Live(items, now)) <= Keys(items) &&
            |Live(items, now)| <= |items|
    ensures |Live(items, now)| == |items| ==> Live(items, now) == items
  {
    if items != [] && now <= items[0].exp {
      LiveKeeps(items[1..], now, items[0].exp);
      assert ([items[0]] + Live(items[1..], now))[1..] == Live(items[1..], now);
    }
  }

  /** Removing a key and dropping the expired items commute. */
  lemma {:induction false} LiveRemove(items: seq<Item>, k: Key, now: int, bound: int)
    requires Sorted(items, bound) && Distinct(items)
    ensures Live(Remove(items, k), now) == Remove(Live(items, now), k)
  {
    if items != [] {
      var t := items[1..];
      if now > items[0].exp {
        SortedExpired(t, items[0].exp, now);
      } else {
        assert ([items[0]] + Live(t, now))[1..] == Live(t, now);
        if items[0].key != k {
          LiveRemove(t, k, now, items[0].exp);
          assert ([items[0]] + Remove(t, k))[1..] == Remove(t, k);
        }
      }
    }
  }

  lemma {:induction false} LiveLater(items: seq<Item>, now: int, later: int)
    requires now <= later
    ensures Live(Live(items, now), later) == Live(items, later)
  {
    if items != [] && now <= items[0].exp {
      LiveLater(items[1..], now, later);
      assert ([items[0]] + Live(items[1..], now))[1..] == Live(items[1..], now);
    }
  }

  lemma {:induction false} LiveTake(items: seq<Item>, now: int, n: int)
    ensures Live(Take(items, n), now) == Take(Live(items, now), n)
    decreases |items|
  {
    if items != [] && n > 0 {
      LiveTake(items[1..], now, n - 1);
      assert ([items[0]] + Take(items[1..], n - 1))[1..] == Take(items[1..], n - 1);
      assert ([items[0]] + Live(items[1..], now))[1..] == Live(items[1..], now);
    }
  }

  lemma LivePush(item: Item, items: seq<Item>, now: int)
    requires now <= item.exp
    ensures Live([item] + items, now) == [item] + Live(items, now)
  {
    assert ([item] + items)[1..] == items;
  }

  lemma TakePush(item: Item, items: seq<Item>, n: int)
    requires n >= 1
    ensures Take([item] + items, n) == [item] + Take(items, n - 1)
  {
    assert ([item] + items)[1..] == items;
  }

  lemma {:induction false} TakeTake(items: seq<Item>, n: int, m: int)
    requires m <= n
    ensures Take(Take(items, n), m) == Take(items, m)
    decreases |items|
  {
    if items != [] && m > 0 {
      TakeTake(items[1..], n - 1, m - 1);
      assert ([items[0]] + Take(items[1..], n - 1))[1..] == Take(items[1..], n - 1);
    }
  }

  lemma {:induction false} TakeLength(items: seq<Item>, n: nat)
    ensures Take(items, n) == if n <= |items| then items[..n] else items
    decreases |items|
  {
    if items != [] && n > 0 {
      TakeLength(items[1..], n - 1);
    }
  }

  /** Taking n items and removing a key: one among them makes room for nothing ... */
  lemma {:induction false} TakeRemove(items: seq<Item>, k: Key, n: nat)
    requires Distinct(items) && k in Keys(Take(items, n))
    ensures n >= 1 &&
            Remove(Take(items, n), k) == Take(Remove(items, k), n - 1)
    decreases |items|
  {
    var t := items[1..];
    TakePush(items[0], t, n);
    assert items == [items[0]] + t;
    assert Take(items, n)[1..] == Take(t, n - 1);
    if items[0].key != k {
      TakeRemove(t, k, n - 1);
      TakePush(items[0], Remove(t, k), n - 1);
    }
  }

  /** ... and one behind them leaves the first n - 1 alone. */
  lemma {:induction false} TakeRemoveBehind(items: seq<Item>, k: Key, n: nat)
    requires Distinct(items) && n >= 1 && k !in Keys(Take(items, n))
    ensures Take(Remove(items, k), n - 1) == Take(items, n - 1)
    decreases |items|
  {
    if items != [] {
      var t := items[1..];
      assert ([items[0]] + Take(t, n - 1))[1..] == Take(t, n - 1);
      assert ([items[0]] + Remove(t, k))[1..] == Remove(t, k);
      if n >= 2 { TakeRemoveBehind(t, k, n - 1); }
    }
  }

  /** A sorted list ends in an expired item or is all live. */
  lemma {:induction false} LiveInit(items: seq<Item>, now: int, bound: int)
    requires Sorted(items, bound) && items != []
    ensures var last := items[|items| - 1];
            Sorted(items[..|items| - 1], bound) &&
            last.exp <= bound &&
            if now > last.exp then Live(items[..|items| - 1], now) == Live(items, now) else Live(items, now) == items
  {
    var t, n := items[1..], |items| - 1;
    if n > 0 {
      LiveInit(t, now, items[0].exp);
      assert items[..n] == [items[0]] + t[..n - 1];
      assert items[..n][1..] == t[..n - 1];
    }
  }

  /** Eviction leaves the first size live items. */
  lemma {:induction false} EvictedIsLive(items: seq<Item>, size: nat, now: int, bound: int)
    requires Sorted(items, bound)
    ensures Evicted(items, size, now) == Take(Live(items, now), size)
    decreases |items|
  {
    hide Sorted, Live, Take;
    if items != [] {
      var n := |items| - 1;
      LiveInit(items, now, bound);
      if |items| <= size && now <= items[n].exp {
        TakeLength(items, size);
      } else {
        EvictedIsLive(items[..n], size, now, bound);
        if now <= items[n].exp {
          if n > 0 { LiveInit(items[..n], now, bound); }
          LiveOfInit(items, now, bound);
          TakeLength(items, size);
          TakeLength(items[..n], size);
        }
      }
    } else {
      LiveOfNothing(now, size);
    }
  }

  lemma LiveOfNothing(now: int, n: int)
    ensures Live([], now) == [] && Take(Live([], now), n) == []
  {
  }

  lemma {:induction false} LiveOfInit(items: seq<Item>, now: int, bound: int)
    requires Sorted(items, bound) && items != [] && now <= items[|items| - 1].exp
    ensures Live(items[..|items| - 1], now) == items[..|items| - 1]
  {
    var t, n := items[1..], |items| - 1;
    if n > 0 {
      LiveInit(items, now, bound);
      LiveOfInit(t, now, items[0].exp);
      assert items[..n] == [items[0]] + t[..n - 1];
      assert items[..n][1..] == t[..n - 1];
      LiveInit(t, now, items[0].exp);
    }
  }

  // ------------------------------------------------------------ what one operation leaves

  /** A lookup that finds nothing leaves the table without the key; one that finds its server
      leaves it alone. */
  lemma GetLeaves(items: seq<Item>, k: Key, now: int)
    ensures AfterGet(items, k, now) == if Lookup(items, k, now) == None then Remove(items, k) else items
  {
    if k !in Keys(items) { LookupAbsent(items, k, now); }
  }

  /** Eviction leaves the longest front part that fits the size and does not end in an expired
      item. */
  lemma {:induction false} EvictedIs(items: seq<Item>, size: nat, now: int)
    ensures var left := Evicted(items, size, now);
            left <= items && |left| <= size && (left != [] ==> now <= left[|left| - 1].exp) &&
            forall i :: |left| <= i < |items| ==> i >= size || now > items[i].exp
  {
    if items != [] { EvictedIs(items[..|items| - 1], size, now); }
  }

  /** A store puts its item in front of the other keys'. A refresh evicts nothing; a new key
      leaves a table that fits. */
  lemma PutLeaves(items: seq<Item>, k: Key, server: string, now: int, size: nat, expire: int)
    ensures var after, all := AfterPut(items, k, server, now, size, expire), [Item(k, server, now + expire)] + Remove(items, k);
            after <= all && (if k in Keys(items) then after == all else |after| <= size)
  {
    EvictedIs([Item(k, server, now + expire)] + items, size, now);
    if k !in Keys(items) { LookupAbsent(items, k, now); }
  }

  // ------------------------------------------------------------ bounded against unbounded

  /** What every list of stored items looks like at an instant. */
  ghost predicate Stored(items: seq<Item>, now: int, expire: int)
  {
    items == [] || (Distinct(items) && Sorted(items, now + expire))
  }

  lemma StoredIs(items: seq<Item>, now: int, expire: int)
    ensures Stored(items, now, expire) <==> Distinct(items) && Sorted(items, now + expire)
  {
  }

  /** The live part of the bounded list is the first size live items of the unbounded one. */
  ghost predicate Tracks(items: seq<Item>, ideal: seq<Item>, size: nat, now: int, expire: int)
  {
    |items| <= size &&
    Stored(items, now, expire) &&
    Stored(ideal, now, expire) &&
    Live(items, now) == Take(Live(ideal, now), size)
  }

  lemma TracksLater(items: seq<Item>, ideal: seq<Item>, size: nat, now: int, later: int, expire: int)
    requires Tracks(items, ideal, size, now, expire) && now <= later
    ensures Tracks(items, ideal, size, later, expire)
  {
    LiveLater(items, now, later);
    LiveLater(ideal, now, later);
    LiveTake(Live(ideal, now), later, size);
    SortedWeaken(items, now + expire, later + expire);
    SortedWeaken(ideal, now + expire, later + expire);
  }

  lemma GetTracks(items: seq<Item>, ideal: seq<Item>, size: nat, now: int, expire: int, k: Key)
    requires Tracks(items, ideal, size, now, expire)
    ensures Tracks(AfterGet(items, k, now), ideal, size, now, expire)
  {
    if k in Keys(items) && Lookup(items, k, now) == None {
      RemoveKeeps(items, k, now + expire);
      LiveRemove(items, k, now, now + expire);
      LookupLive(items, k, now, now + expire);
      LiveKeeps(items, now, now + expire);
      LookupAbsent(Live(items, now), k, now);
    }
  }

  /** A lookup sees only live items. */
  lemma {:induction false} LookupLive(items: seq<Item>, k: Key, now: int, bound: int)
    requires Sorted(items, bound) && Distinct(items)
    ensures Lookup(items, k, now) == Lookup(Live(items, now), k, now)
    ensures Lookup(items, k, now) == None <==> k !in Keys(Live(items, now))
  {
    if items != [] {
      LookupLive(items[1..], k, now, items[0].exp);
      assert ([items[0]] + Live(items[1..], now))[1..] == Live(items[1..], now);
      if now > items[0].exp { SortedExpired(items[1..], items[0].exp, now); }
    }
  }

  lemma PushStored(items: seq<Item>, item: Item, now: int, expire: int)
    requires Stored(items, now, expire) && item.key !in Keys(items) && item.exp == now + expire
    ensures Stored([item] + items, now, expire)
  {
    assert ([item] + items)[1..] == items;
  }

  /** Storing a key in the unbounded list. */
  lemma IdealPut(ideal: seq<Item>, k: Key, server: string, now: int, expire: nat)
    requires Stored(ideal, now, expire)
    ensures var item := Item(k, server, now + expire);
            Stored([item] + Remove(ideal, k), now, expire) &&
            Live([item] + Remove(ideal, k), now) == [item] + Remove(Live(ideal, now), k)
  {
    var item := Item(k, server, now + expire);
    RemoveKeeps(ideal, k, now + expire);
    PushStored(Remove(ideal, k), item, now, expire);
    LivePush(item, Remove(ideal, k), now);
    LiveRemove(ideal, k, now, now + expire);
  }

  /** Both lists keep agreeing after a store: the live parts, one stored item later. */
  lemma PutTracks(items: seq<Item>, ideal: seq<Item>, size: nat, now: int, expire: nat, k: Key, server: string)
    requires Tracks(items, ideal, size, now, expire) && size >= 1
    ensures Tracks(
              AfterPut(items, k, server, now, size, expire),
              [Item(k, server, now + expire)] + Remove(ideal, k),
              size, now, expire)
  {
    hide Sorted, Distinct, Live, Take, Remove, Keys, Evicted;
    var item := Item(k, server, now + expire);
    var live, l := Live(items, now), Live(ideal, now);
    IdealPut(ideal, k, server, now, expire);
    LiveKeeps(items, now, now + expire);
    LiveKeeps(ideal, now, now + expire);
    if k in Keys(live) { TakeRemove(l, k, size); } else { TakeRemoveBehind(l, k, size); }
    TakePush(item, Remove(l, k), size);
    TakeLength(l, size);
    TakeLength(l, size - 1);
    if k in Keys(items) {
      IdealPut(items, k, server, now, expire);
      RemoveKeeps(items, k, now + expire);
      if k !in Keys(live) {
        LookupAbsent(live, k, now);
        assert |live| < |items|;
      }
    } else {
      PushStored(items, item, now, expire);
      EvictedIsLive([item] + items, size, now, now + expire);
      LivePush(item, items, now);
      TakePush(item, live, size);
      TakeTake(l, size, size - 1);
      EvictedStored([item] + items, size, now, expire);
    }
  }

  /** What is left after an eviction is stored, and all live. */
  lemma EvictedStored(items: seq<Item>, size: nat, now: int, expire: int)
    requires Stored(items, now, expire)
    ensures var left := Take(Live(items, now), size);
            Stored(left, now, expire) &&
            |left| <= size &&
            Live(left, now) == left
  {
    var l := Live(items, now);
    LiveKeeps(items, now, now + expire);
    TakeKeeps(l, size, now + expire);
    LiveTake(l, now, size);
    LiveLater(items, now, now);
  }

  lemma {:induction false} TakeKeeps(items: seq<Item>, n: nat, bound: int)
    requires Sorted(items, bound) && Distinct(items)
    ensures Sorted(Take(items, n), bound) &&
            Distinct(Take(items, n))
    ensures Keys(Take(items, n)) <= Keys(items) &&
            |Take(items, n)| <= n
    decreases |items|
  {
    if items != [] && n > 0 {
      TakeKeeps(items[1..], n - 1, items[0].exp);
      assert ([items[0]] + Take(items[1..], n - 1))[1..] == Take(items[1..], n - 1);
    }
  }

  lemma {:induction false} RunTracks(h: seq<Op>, size: nat, expire: nat, now: int)
    requires Ordered(h) && size >= 1 && (h != [] ==> h[|h| - 1].at <= now)
    ensures Tracks(Run(h, size, expire), Ideal(h, expire), size, now, expire)
    decreases |h|
  {
    hide Tracks, AfterPut, AfterGet, Live, Take, Remove;
    if h != [] {
      var n := |h| - 1;
      var items, ideal := Run(h[..n], size, expire), Ideal(h[..n], expire);
      RunTracks(h[..n], size, expire, h[n].at);
      match h[n] {
        case Put(k, server, at) => PutTracks(items, ideal, size, at, expire, k, server);
        case Get(k, at) => GetTracks(items, ideal, size, at, expire, k);
      }
      TracksLater(Run(h, size, expire), Ideal(h, expire), size, h[n].at, now, expire);
    } else {
      TracksNothing(size, now, expire);
    }
  }

  lemma TracksNothing(size: nat, now: int, expire: int)
    ensures Tracks([], [], size, now, expire)
  {
  }

  // ------------------------------------------------------------ recency

  /** The keys in front of a key. */
  function Before(items: seq<Item>, k: Key): set<Key>
  {
    if items == [] || items[0].key == k then {} else {items[0].key} + Before(items[1..], k)
  }

  /** The item stored for a key. */
  function ItemOf(items: seq<Item>, k: Key): Option<Item>
  {
    if items == [] then None else if items[0].key == k then Some(items[0]) else ItemOf(items[1..], k)
  }

  lemma {:induction false} BeforeRemove(items: seq<Item>, k2: Key, k: Key)
    requires Distinct(items) && k2 != k
    ensures Before(Remove(items, k2), k) == Before(items, k) - {k2}
    ensures ItemOf(Remove(items, k2), k) == ItemOf(items, k)
    ensures Keys(Remove(items, k2)) == Keys(items) - {k2} && Distinct(Remove(items, k2))
  {
    if items != [] {
      var t := items[1..];
      BeforeRemove(t, k2, k);
      if items[0].key == k2 {
        BeforeInKeys(t, k);
      } else {
        assert ([items[0]] + Remove(t, k2))[1..] == Remove(t, k2);
      }
    }
  }

  lemma {:induction false} BeforeInKeys(items: seq<Item>, k: Key)
    ensures Before(items, k) <= Keys(items)
    ensures ItemOf(items, k).Some? <==> k in Keys(items)
  {
    if items != [] { BeforeInKeys(items[1..], k); }
  }

  /** In the unbounded list a key's item is its last store, and the keys in front of it are
      those stored since. */
  lemma {:induction false} Recency(h: seq<Op>, expire: int, k: Key)
    ensures var items := Ideal(h, expire); var p := LastPut(h, k);
            Distinct(items) &&
            ItemOf(items, k) == (if p < 0 then None else Some(Item(k, h[p].server, h[p].at + expire))) &&
            (p >= 0 ==> Before(items, k) == KeysPut(h, p + 1))
    decreases |h|
  {
    hide Distinct, ItemOf, Before, Remove, KeysPut;
    if h == [] {
      RecencyOfNothing(k);
    } else {
      var n := |h| - 1;
      var was := Ideal(h[..n], expire);
      var p := LastPut(h[..n], k);
      Recency(h[..n], expire, k);
      KeysPutStep(h, p + 1);
      LastPutStep(h, k);
      hide LastPut;
      if h[n].Put? {
        RecencyPut(was, Item(h[n].key, h[n].server, h[n].at + expire), k);
        KeysPutLast(h);
      }
    }
  }

  lemma LastPutStep(h: seq<Op>, k: Key)
    requires h != []
    ensures var n := |h| - 1; var p := LastPut(h[..n], k);
            LastPut(h, k) == (if h[n].Put? && h[n].key == k then n else p) && (p >= 0 ==> h[..n][p] == h[p])
  {
  }

  /** What one store does to the place of a key. */
  lemma RecencyPut(was: seq<Item>, item: Item, k: Key)
    requires Distinct(was)
    ensures var items := [item] + Remove(was, item.key);
            Distinct(items) &&
            ItemOf(items, k) == (if item.key == k then Some(item) else ItemOf(was, k)) &&
            Before(items, k) == if item.key == k then {} else Before(was, k) + {item.key}
  {
    DistinctPush(was, item);
    assert ([item] + Remove(was, item.key))[1..] == Remove(was, item.key);
    if item.key != k {
      BeforeRemove(was, item.key, k);
    }
  }

  lemma KeysPutLast(h: seq<Op>)
    ensures KeysPut(h, |h|) == {}
  {
  }

  lemma RecencyOfNothing(k: Key)
    ensures Distinct([]) && ItemOf([], k) == None
  {
  }

  lemma DistinctPush(items: seq<Item>, item: Item)
    requires Distinct(items)
    ensures Distinct([item] + Remove(items, item.key))
  {
    BeforeRemove(items, item.key, item.key + 1);
    assert ([item] + Remove(items, item.key))[1..] == Remove(items, item.key);
  }

  lemma KeysPutStep(h: seq<Op>, p: int)
    requires h != [] && p <= |h| - 1
    ensures KeysPut(h, p) == KeysPut(h[..|h| - 1], p) + if h[|h| - 1].Put? then {h[|h| - 1].key} else {}
  {
    var n := |h| - 1;
    forall k | k in KeysPut(h, p)
      ensures k in KeysPut(h[..n], p) || (h[n].Put? && k == h[n].key)
    {
      var q :| 0 <= q < |h| && p <= q && h[q].Put? && h[q].key == k;
      if q < n { assert h[..n][q] == h[q]; }
    }
    forall k | k in KeysPut(h[..n], p)
      ensures k in KeysPut(h, p)
    {
      var q :| 0 <= q < n && p <= q && h[..n][q].Put? && h[..n][q].key == k;
      assert h[q] == h[..n][q];
    }
  }

  /** A lookup among the first n live items: the key's item counts if fewer than n keys stand
      in front of it and it is not expired. */
  lemma {:induction false} LookupTake(items: seq<Item>, k: Key, n: nat, now: int, bound: int)
    requires Sorted(items, bound) && Distinct(items)
    ensures Lookup(Take(Live(items, now), n), k, now) ==
            match ItemOf(items, k)
            case None => None
            case Some(item) => if now <= item.exp && |Before(items, k)| < n then Some(item.server) else None
    decreases |items|
  {
    if items != [] {
      var t := items[1..];
      BeforeInKeys(t, k);
      if now > items[0].exp {
        SortedExpired(t, items[0].exp, now);
        StoredExpired(t, k, items[0].exp);
      } else if n > 0 {
        LookupTake(t, k, n - 1, now, items[0].exp);
        TakePush(items[0], Live(t, now), n);
        assert ([items[0]] + Take(Live(t, now), n - 1))[1..] == Take(Live(t, now), n - 1);
        if items[0].key != k {
          assert items[0].key !in Before(t, k);
        }
      }
    }
  }

  lemma {:induction false} StoredExpired(items: seq<Item>, k: Key, bound: int)
    requires Sorted(items, bound)
    ensures ItemOf(items, k).Some? ==> ItemOf(items, k).value.exp <= bound
  {
    if items != [] { StoredExpired(items[1..], k, items[0].exp); }
  }

  // ------------------------------------------------------------ the theorem

  /** A table without room, or whose entries expire before they are stored, stays empty. */
  lemma {:induction false} RunStaysEmpty(h: seq<Op>, size: nat, expire: int)
    requires size == 0 || expire < 0
    ensures Run(h, size, expire) == []
    decreases |h|
  {
    if h != [] {
      RunStaysEmpty(h[..|h| - 1], size, expire);
      if h[|h| - 1].Put? {
        var item := Item(h[|h| - 1].key, h[|h| - 1].server, h[|h| - 1].at + expire);
        assert [item] + Run(h[..|h| - 1], size, expire) == [item] && [item][..0] == [];
        assert Evicted([item], size, h[|h| - 1].at) == Evicted([], size, h[|h| - 1].at) == [];
        assert Keys(Run(h[..|h| - 1], size, expire)) == {};
      }
    }
  }

  lemma LookupNothing(k: Key, now: int)
    ensures Lookup([], k, now) == None && Distinct([])
  {
  }

  lemma ExpiredByNow(h: seq<Op>, k: Key, now: int, expire: int)
    ensures Ordered(h) && (h != [] ==> h[|h| - 1].at <= now) ==> (LastPut(h, k) >= 0 ==> h[LastPut(h, k)].at <= now)
  {
  }

  /** Over every history of stores and lookups with a clock that does not go back, a lookup
      returns the server of the key's last store exactly when that store is not expired and
      fewer than size distinct other keys were stored since; and the table never exceeds its
      size. */
  lemma LookupIsExpected(h: seq<Op>, size: nat, expire: int, k: Key, now: int)
    requires Ordered(h) && (h != [] ==> h[|h| - 1].at <= now)
    ensures Lookup(Run(h, size, expire), k, now) == Expected(h, k, now, size, expire)
    ensures |Run(h, size, expire)| <= size &&
            Distinct(Run(h, size, expire))
  {
    hide Run, Ideal, Sorted, Live, Take, Lookup, Distinct, Before, ItemOf, KeysPut;
    if size == 0 || expire < 0 {
      RunStaysEmpty(h, size, expire);
      LookupNothing(k, now);
      ExpiredByNow(h, k, now, expire);
      return;
    }
    RunTracks(h, size, expire, now);
    StoredIs(Run(h, size, expire), now, expire);
    StoredIs(Ideal(h, expire), now, expire);
    Recency(h, expire, k);
    LookupLive(Run(h, size, expire), k, now, now + expire);
    LookupTake(Ideal(h, expire), k, size, now, now + expire);
  }
}
