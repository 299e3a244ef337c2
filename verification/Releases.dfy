/**
  The release store of an engine's agent (internal/agent/releases.go): release directories, the
  current link and the history of activated releases. File operations succeed here; a file set
  is a value, and a release with the same hash has the same content.
 */
module Releases {

  type Hash = string
  type Files = map<string, string>

  /** No release, as the source writes it. */
  const NONE: Hash := ""
  const BOOTSTRAP: Hash := "bootstrap"
  const HISTORY: nat := 50

  /** link is the release the current link names (NONE without a link); history has the oldest
      release first. */
  datatype Store = Store(dirs: map<Hash, Files>, link: Hash, history: seq<Hash>)

  /** The active release; a link to a directory that is gone counts as none. */
  function Current(s: Store): Hash
  {
    if s.link in s.dirs then s.link else NONE
  }

  function Last(h: seq<Hash>): Hash
  {
    if h == [] then NONE else h[|h| - 1]
  }

  // ------------------------------------------------------------ operations

  function Written(s: Store, hash: Hash, files: Files): Store
  {
    if hash in s.dirs then s else s.(dirs := s.dirs[hash := files])
  }

  /** Removes a release that is neither current nor in the history. */
  function Removed(s: Store, hash: Hash): Store
  {
    if hash == NONE || hash == Current(s) || hash in s.history then s else s.(dirs := s.dirs - {hash})
  }

  function Newest(h: seq<Hash>): seq<Hash>
  {
    if |h| > HISTORY then h[|h| - HISTORY..] else h
  }

  function Pushed(h: seq<Hash>, hash: Hash): seq<Hash>
  {
    if h == [] || Last(h) != hash then h + [hash] else h
  }

  function Activated(s: Store, hash: Hash): Store
  {
    s.(link := hash, history := Newest(Pushed(s.history, hash)))
  }

  /** The bootstrap release, written afresh and linked without entering the history. */
  function Bootstrapped(s: Store, files: Files): Store
  {
    s.(dirs := s.dirs[BOOTSTRAP := files], link := BOOTSTRAP)
  }

  /** Drops the failed release from the end of the history and goes back to the previous one. */
  function Reverted(s: Store, failed: Hash, prev: Hash): Store
  {
    var h := if s.history != [] && Last(s.history) == failed then s.history[..|s.history| - 1] else s.history;
    if prev == NONE then s.(link := NONE, history := h)
    else s.(link := prev, history := Pushed(h, prev))
  }

  /** Last position of a release below n; -1 if there is none. */
  function LastIndex(h: seq<Hash>, n: nat, hash: Hash): (i: int)
    requires n <= |h|
    ensures -1 <= i < n
  {
    if n == 0 then -1 else if h[n - 1] == hash then n - 1 else LastIndex(h, n - 1, hash)
  }

  /** Last position below n of another release that still has its directory; -1 if none. */
  function LastOther(s: Store, n: nat, hash: Hash): (i: int)
    requires n <= |s.history|
    ensures -1 <= i < n
  {
    if n == 0 then -1
    else if s.history[n - 1] != hash && s.history[n - 1] in s.dirs then n - 1
    else LastOther(s, n - 1, hash)
  }

  /** The release activated before the current one; NONE if there is none. */
  function Previous(s: Store): Hash
  {
    var i := LastIndex(s.history, |s.history|, Current(s));
    var j := if i < 0 then -1 else LastOther(s, i, Current(s));
    if j < 0 then NONE else s.history[j]
  }

  /** The history up to the last entry of a release. */
  function PoppedTo(h: seq<Hash>, hash: Hash): seq<Hash>
  {
    if h == [] || Last(h) == hash then h else PoppedTo(h[..|h| - 1], hash)
  }

  /** Back to the previous release; a store without one stays as it is. */
  function RolledBack(s: Store): Store
  {
    var prev := Previous(s);
    if prev == NONE then s
    else
      var h := PoppedTo(s.history, prev);
      s.(link := prev, history := if h == [] then [prev] else h)
  }

  /** Adds the newest entries until limit releases are kept. */
  function KeepSet(h: seq<Hash>, kept: set<Hash>, limit: nat): set<Hash>
  {
    if h == [] || |kept| >= limit then kept else KeepSet(h[..|h| - 1], kept + {Last(h)}, limit)
  }

  function Kept(s: Store, keep: nat): set<Hash>
  {
    KeepSet(s.history, {Current(s), BOOTSTRAP}, keep + 2)
  }

  function Filtered(h: seq<Hash>, dirs: map<Hash, Files>): seq<Hash>
  {
    if h == [] then [] else Filtered(h[..|h| - 1], dirs) + if Last(h) in dirs then [Last(h)] else []
  }

  function Restrict(dirs: map<Hash, Files>, kept: set<Hash>): map<Hash, Files>
  {
    map d | d in dirs && d in kept :: dirs[d]
  }

  /** Removes the releases beyond the newest ones, and the history entries without a directory. */
  function Pruned(s: Store, keep: nat): Store
  {
    var dirs := Restrict(s.dirs, Kept(s, keep));
    Store(dirs, s.link, Filtered(s.history, dirs))
  }

  // ------------------------------------------------------------ the object

  class Releases {
    const keep: nat
    var dirs: map<Hash, Files>
    var link: Hash
    var history: seq<Hash>

    function View(): Store
      reads this
    {
      Store(dirs, link, history)
    }

    constructor (keep: nat)
      ensures this.keep == keep && View() == Store(map[], NONE, [])
    {
      this.keep := keep;
      dirs, link, history := map[], NONE, [];
    }

    method Write(hash: Hash, files: Files) returns (created: bool)
      modifies this`dirs
      ensures View() == Written(old(View()), hash, files) && (created <==> hash !in old(dirs))
    {
      if hash in dirs {
        return false;
      }
      dirs := dirs[hash := files];
      return true;
    }

    method Remove(hash: Hash)
      modifies this`dirs
      ensures View() == Removed(old(View()), hash)
    {
      if hash == NONE || hash == Current(View()) {
        return;
      }
      for i := 0 to |history|
        invariant dirs == old(dirs)
        invariant hash !in history[..i]
      {
        if history[i] == hash {
          return;
        }
      }
      dirs := dirs - {hash};
    }

    method Bootstrap(files: Files)
      modifies this`dirs, this`link
      ensures View() == Bootstrapped(old(View()), files)
    {
      dirs := dirs - {BOOTSTRAP};
      dirs := dirs[BOOTSTRAP := files];
      link := BOOTSTRAP;
    }

    method Activate(hash: Hash)
      requires hash in dirs
      modifies this`link, this`history
      ensures View() == Activated(old(View()), hash)
    {
      link := hash;
      var h := history;
      if |h| == 0 || h[|h| - 1] != hash {
        h := h + [hash];
      }
      if |h| > HISTORY {
        h := h[|h| - HISTORY..];
      }
      history := h;
    }

    method Revert(failed: Hash, prev: Hash)
      requires prev == NONE || prev in dirs
      modifies this`link, this`history
      ensures View() == Reverted(old(View()), failed, prev)
    {
      var h := history;
      if |h| > 0 && h[|h| - 1] == failed {
        h := h[..|h| - 1];
      }
      if prev == NONE {
        link := NONE;
        history := h;
        return;
      }
      link := prev;
      if |h| == 0 || h[|h| - 1] != prev {
        h := h + [prev];
      }
      history := h;
    }

    method FindPrevious() returns (r: Hash)
      ensures r == Previous(View())
    {
      var h, cur := history, Current(View());
      var i := |h| - 1;
      while i >= 0
        invariant -1 <= i < |h|
        invariant LastIndex(h, |h|, cur) == LastIndex(h, i + 1, cur)
      {
        if h[i] == cur {
          var j := i - 1;
          while j >= 0
            invariant -1 <= j < i
            invariant LastOther(View(), i, cur) == LastOther(View(), j + 1, cur)
          {
            if h[j] != cur && h[j] in dirs {
              return h[j];
            }
            j := j - 1;
          }
          break;
        }
        i := i - 1;
      }
      return NONE;
    }

    method Rollback() returns (r: Hash)
      modifies this`link, this`history
      ensures r == Previous(old(View())) && View() == RolledBack(old(View()))
    {
      var prev := FindPrevious();
      if prev == NONE {
        return NONE;
      }
      link := prev;
      var h := history;
      while |h| > 0 && h[|h| - 1] != prev
        invariant PoppedTo(h, prev) == PoppedTo(history, prev)
      {
        h := h[..|h| - 1];
      }
      if |h| == 0 {
        h := [prev];
      }
      history := h;
      return prev;
    }

    /** The releases to keep: the newest ones of the history, as long as there is room. */
    method KeepNewest() returns (kept: set<Hash>)
      ensures kept == Kept(View(), keep)
    {
      hide KeepSet;
      kept := {Current(View()), BOOTSTRAP};
      var h := history;
      var i := |h| - 1;
      assert h[..|h|] == h;
      while i >= 0 && |kept| < keep + 2
        invariant -1 <= i < |h|
        invariant KeepSet(h[..i + 1], kept, keep + 2) == Kept(View(), keep)
      {
        KeepSetNext(h, i, kept, keep + 2);
        kept := kept + {h[i]};
        i := i - 1;
      }
      KeepSetDone(h[..i + 1], kept, keep + 2);
    }

    /** The history without entries that have no directory. */
    method TrimHistory()
      modifies this`history
      ensures history == Filtered(old(history), dirs)
    {
      var h := history;
      var left: seq<Hash> := [];
      for j := 0 to |h|
        invariant left == Filtered(h[..j], dirs) && history == h
      {
        assert h[..j + 1][..j] == h[..j];
        if h[j] in dirs {
          left := left + [h[j]];
        }
      }
      assert h[..|h|] == h;
      history := left;
    }

    method Prune()
      modifies this`dirs, this`history
      ensures View() == Pruned(old(View()), keep)
    {
      hide Kept, KeepSet, Filtered;
      var kept := KeepNewest();
      dirs := map d | d in dirs && d in kept :: dirs[d];
      TrimHistory();
    }
  }

  // ------------------------------------------------------------ soundness

  /** The link and every entry of the history name releases that are there; the empty name is no
      release. */
  ghost predicate Sound(s: Store)
  {
    NONE !in s.dirs &&
    (s.link != NONE ==> s.link in s.dirs) &&
    |s.history| <= HISTORY &&
    Held(s.history, s.dirs)
  }

  ghost predicate Held(h: seq<Hash>, dirs: map<Hash, Files>)
  {
    forall x :: x in h ==> x in dirs
  }

  lemma WriteIsSound(s: Store, hash: Hash, files: Files)
    requires Sound(s) && hash != NONE
    ensures var b := Written(s, hash, files); Sound(b) && hash in b.dirs && Current(b) == Current(s)
  {
  }

  lemma PushHeld(h: seq<Hash>, hash: Hash, dirs: map<Hash, Files>)
    requires Held(h, dirs) && hash in dirs
    ensures Held(Pushed(h, hash), dirs) && Held(Newest(Pushed(h, hash)), dirs)
    ensures |Pushed(h, hash)| <= |h| + 1 && |Newest(Pushed(h, hash))| <= HISTORY
    ensures Last(Newest(Pushed(h, hash))) == hash
  {
  }

  lemma ActivateIsSound(s: Store, hash: Hash)
    requires Sound(s) && hash in s.dirs
    ensures var b := Activated(s, hash); Sound(b) && Current(b) == hash && b.dirs == s.dirs && Last(b.history) == hash
  {
    PushHeld(s.history, hash, s.dirs);
    hide Held, Newest, Pushed;
  }

  lemma InitHeld(h: seq<Hash>, dirs: map<Hash, Files>)
    ensures h != [] && Held(h, dirs) ==> Held(h[..|h| - 1], dirs)
  {
  }

  lemma SoundHeld(s: Store)
    ensures Sound(s) ==> Held(s.history, s.dirs)
  {
  }

  lemma SoundLink(s: Store)
    ensures Sound(s) && s.link != NONE ==> s.link in s.dirs
  {
  }

  /** Going back from a release just activated. */
  lemma RevertIsSound(s: Store, hash: Hash, prev: Hash)
    requires Sound(s) && s.history != [] && Last(s.history) == hash && (prev != NONE ==> prev in s.dirs)
    ensures var b := Reverted(s, hash, prev); Sound(b) && Current(b) == prev && b.dirs == s.dirs
  {
    InitHeld(s.history, s.dirs);
    if prev != NONE { PushHeld(s.history[..|s.history| - 1], prev, s.dirs); }
    hide Held, Pushed;
  }

  lemma {:induction false} KeepSetGrows(h: seq<Hash>, kept: set<Hash>, limit: nat)
    ensures kept <= KeepSet(h, kept, limit)
  {
    if h != [] && |kept| < limit {
      KeepSetGrows(h[..|h| - 1], kept + {Last(h)}, limit);
    }
  }

  lemma {:induction false} FilteredIs(h: seq<Hash>, dirs: map<Hash, Files>)
    ensures |Filtered(h, dirs)| <= |h|
    ensures forall x :: x in Filtered(h, dirs) <==> x in h && x in dirs
  {
    if h != [] {
      FilteredIs(h[..|h| - 1], dirs);
      assert h == h[..|h| - 1] + [Last(h)];
    }
  }

  lemma KeepSetNext(h: seq<Hash>, i: nat, kept: set<Hash>, limit: nat)
    requires i < |h| && |kept| < limit
    ensures KeepSet(h[..i + 1], kept, limit) == KeepSet(h[..i], kept + {h[i]}, limit)
  {
    assert h[..i + 1][..i] == h[..i];
  }

  lemma KeepSetDone(h: seq<Hash>, kept: set<Hash>, limit: nat)
    ensures (h == [] || |kept| >= limit) ==> KeepSet(h, kept, limit) == kept
  {
  }

  /** Pruning never touches the current release or its files. */
  lemma PruneKeepsCurrent(s: Store, keep: nat)
    requires Sound(s)
    ensures Sound(Pruned(s, keep)) &&
            Current(Pruned(s, keep)) == Current(s)
    ensures Current(s) != NONE ==> Pruned(s, keep).dirs[Current(s)] == s.dirs[Current(s)]
    ensures forall d :: d in Pruned(s, keep).dirs ==> d in s.dirs && Pruned(s, keep).dirs[d] == s.dirs[d]
    ensures forall d :: d in Pruned(s, keep).history ==> d in Pruned(s, keep).dirs
  {
    KeepSetGrows(s.history, {Current(s), BOOTSTRAP}, keep + 2);
    FilteredIs(s.history, Restrict(s.dirs, Kept(s, keep)));
    hide KeepSet, Filtered;
  }

  lemma {:induction false} KeepSetBound(h: seq<Hash>, kept: set<Hash>, limit: nat)
    requires |kept| <= limit
    ensures |KeepSet(h, kept, limit)| <= limit
  {
    if h != [] && |kept| < limit {
      assert Last(h) in kept ==> kept + {Last(h)} == kept;
      KeepSetBound(h[..|h| - 1], kept + {Last(h)}, limit);
    }
  }

  lemma {:induction false} SubsetSize(xs: set<Hash>, ys: set<Hash>)
    requires xs <= ys
    ensures |xs| <= |ys|
    decreases |xs|
  {
    if xs != {} {
      var x :| x in xs;
      SubsetSize(xs - {x}, ys - {x});
    }
  }

  /** Removing any release leaves the store sound, so it never takes away the current release or
      one that the history names; any other one is gone. */
  lemma RemoveIsSound(s: Store, hash: Hash)
    requires Sound(s)
    ensures var r := Removed(s, hash);
            Sound(r) && r.link == s.link && r.history == s.history &&
            (hash == NONE || hash == Current(s) || hash in s.history || hash !in r.dirs) &&
            forall d :: d in s.dirs && d != hash ==> d in r.dirs && r.dirs[d] == s.dirs[d]
  {
  }

  /** Pruning leaves at most keep + 2 releases. */
  lemma PruneBounds(s: Store, keep: nat)
    ensures |Pruned(s, keep).dirs.Keys| <= keep + 2
  {
    FewKept(Current(s));
    KeepSetBound(s.history, {Current(s), BOOTSTRAP}, keep + 2);
    SubsetSize(Pruned(s, keep).dirs.Keys, Kept(s, keep));
  }

  // ------------------------------------------------------------ the current release in the history

  /** A sound store without a history, which has at most the bootstrap release, or with a history
      that ends in the current release. */
  ghost predicate Neat(s: Store)
  {
    (Sound(s) && s.history == [] && (s.link == NONE || s.link == BOOTSTRAP)) ||
    (Sound(s) && s.history != [] && s.link == Last(s.history))
  }

  lemma NeatCurrent(s: Store)
    requires Neat(s)
    ensures Sound(s) && Current(s) == s.link
    ensures s.history != [] ==> Current(s) != NONE && Last(s.history) == Current(s)
    ensures Current(s) != NONE && Current(s) != BOOTSTRAP ==> s.history != []
  {
    if s.history != [] { assert Last(s.history) in s.history; }
  }

  lemma SwapIsNeat(s: Store, hash: Hash, files: Files)
    requires Sound(s) && hash != NONE
    ensures var b := Activated(Written(s, hash, files), hash); Neat(b) && b.history != []
  {
    hide Sound, Written, Activated, Current;
    WriteIsSound(s, hash, files);
    ActivateIsSound(Written(s, hash, files), hash);
    ActivatedLast(Written(s, hash, files), hash);
  }

  lemma ActivatedLast(s: Store, hash: Hash)
    ensures var b := Activated(s, hash); b.link == hash && b.history != [] && Last(b.history) == hash
  {
  }

  /** Going back from a swap to what was current leaves the history ending in it. */
  lemma RevertIsNeat(s: Store, hash: Hash, files: Files)
    requires Neat(s) && hash != NONE
    ensures Neat(Reverted(Activated(Written(s, hash, files), hash), hash, Current(s)))
  {
    hide Sound, Written, Current;
    NeatCurrent(s);
    var b := Activated(Written(s, hash, files), hash);
    WriteIsSound(s, hash, files);
    ActivateIsSound(Written(s, hash, files), hash);
    ActivatedLast(Written(s, hash, files), hash);
    CurrentWritten(s, hash, files);
    RevertIsSound(b, hash, Current(s));
    if Current(s) == NONE { HistoryStays(s, hash, files); }
  }

  lemma CurrentWritten(s: Store, hash: Hash, files: Files)
    ensures Current(s) != NONE ==> Current(s) in Written(s, hash, files).dirs
  {
  }

  lemma PruneIsNeat(s: Store, keep: nat)
    requires Neat(s)
    ensures Neat(Pruned(s, keep)) && (s.history != [] ==> Pruned(s, keep).history != [])
  {
    hide Sound, Kept, Restrict;
    NeatCurrent(s);
    PruneKeepsCurrent(s, keep);
    if s.history != [] {
      assert s.link in Pruned(s, keep).dirs by { SoundLink(Pruned(s, keep)); }
    }
  }

  lemma RolledBackIsNeat(s: Store)
    requires Neat(s)
    ensures Neat(RolledBack(s))
  {
    hide Previous, PoppedTo, Current;
    PreviousIsOther(s);
    PoppedLast(s.history, Previous(s));
  }

  lemma BootstrapIsNeat(s: Store, files: Files)
    requires Neat(s) && Current(s) == NONE
    ensures Neat(Bootstrapped(s, files)) && Current(Bootstrapped(s, files)) == BOOTSTRAP
  {
    NeatCurrent(s);
  }

  lemma {:induction false} PoppedLast(h: seq<Hash>, hash: Hash)
    ensures PoppedTo(h, hash) <= h && (PoppedTo(h, hash) != [] ==> Last(PoppedTo(h, hash)) == hash)
  {
    if h != [] && Last(h) != hash { PoppedLast(h[..|h| - 1], hash); }
  }

  /** The previous release is there and is not the current one. */
  lemma PreviousIsOther(s: Store)
    requires Sound(s)
    ensures Previous(s) != NONE ==> Previous(s) != Current(s) && Previous(s) in s.dirs && Current(RolledBack(s)) == Previous(s)
  {
    var i := LastIndex(s.history, |s.history|, Current(s));
    if i >= 0 { LastOtherIs(s, i, Current(s)); }
  }

  lemma {:induction false} LastOtherIs(s: Store, n: nat, hash: Hash)
    requires n <= |s.history|
    ensures var j := LastOther(s, n, hash);
            j >= 0 ==> s.history[j] != hash && s.history[j] in s.dirs
  {
    if n > 0 { LastOtherIs(s, n - 1, hash); }
  }

  /** The last entry that is not the given release; NONE if all are. */
  function Before(h: seq<Hash>, hash: Hash): Hash
  {
    if h == [] then NONE else if Last(h) != hash then Last(h) else Before(h[..|h| - 1], hash)
  }

  /** Where the history ends in the current release, the previous one is the last other entry. */
  lemma PreviousIsBefore(s: Store)
    requires Neat(s)
    ensures Previous(s) == Before(s.history, Current(s))
  {
    var h, n := s.history, |s.history|;
    hide Sound, Current;
    NeatCurrent(s);
    if n > 0 {
      OtherIsBefore(s, n - 1, Current(s));
      assert Before(h, Current(s)) == Before(h[..n - 1], Current(s));
    }
  }

  lemma {:induction false} OtherIsBefore(s: Store, n: nat, hash: Hash)
    requires Sound(s) && n <= |s.history|
    ensures var j := LastOther(s, n, hash); Before(s.history[..n], hash) == if j < 0 then NONE else s.history[j]
  {
    if n > 0 {
      assert s.history[n - 1] in s.history;
      assert s.history[..n][..n - 1] == s.history[..n - 1];
      OtherIsBefore(s, n - 1, hash);
    }
  }

  /** Wherever the current release stands last, the previous one is the last other entry in front
      of it; one that is not in the history has none. */
  lemma PreviousOf(s: Store, c: nat)
    requires Sound(s) && c <= |s.history|
    requires c < |s.history| ==> s.history[c] == Current(s)
    requires forall i :: c < i < |s.history| ==> s.history[i] != Current(s)
    ensures c < |s.history| ==> Previous(s) == Before(s.history[..c], Current(s))
    ensures Current(s) !in s.history ==> Previous(s) == NONE
  {
    hide Sound, Current;
    LastIndexIs(s.history, |s.history|, Current(s));
    if c < |s.history| { OtherIsBefore(s, c, Current(s)); }
  }

  lemma {:induction false} LastIndexIs(h: seq<Hash>, n: nat, hash: Hash)
    requires n <= |h|
    ensures var i := LastIndex(h, n, hash); (i >= 0 ==> h[i] == hash) && forall j :: i < j < n ==> h[j] != hash
  {
    if n > 0 { LastIndexIs(h, n - 1, hash); }
  }

  lemma {:induction false} BeforeKept(h: seq<Hash>, hash: Hash, kept: set<Hash>, limit: nat)
    requires hash in kept && |kept| < limit
    ensures Before(h, hash) == NONE || Before(h, hash) in KeepSet(h, kept, limit)
  {
    if h != [] {
      if Last(h) == hash {
        assert kept + {hash} == kept;
        BeforeKept(h[..|h| - 1], hash, kept, limit);
      } else {
        KeepSetGrows(h[..|h| - 1], kept + {Last(h)}, limit);
      }
    }
  }

  lemma {:induction false} BeforeFiltered(h: seq<Hash>, hash: Hash, dirs: map<Hash, Files>)
    requires hash in dirs && NONE !in h && (Before(h, hash) == NONE || Before(h, hash) in dirs)
    ensures Before(Filtered(h, dirs), hash) == Before(h, hash)
  {
    if h != [] && Last(h) == hash {
      var init := h[..|h| - 1];
      BeforeFiltered(init, hash, dirs);
      assert (Filtered(init, dirs) + [hash])[..|Filtered(init, dirs)|] == Filtered(init, dirs);
    }
  }

  /** Pruning leaves the way back: the previous release stays the previous one. */
  lemma PruneKeepsPrevious(s: Store, keep: nat)
    requires Neat(s) && keep >= 1
    ensures Previous(Pruned(s, keep)) == Previous(s)
  {
    var b := Pruned(s, keep);
    NeatCurrent(s);
    PruneIsNeat(s, keep);
    PruneKeepsCurrent(s, keep);
    PreviousIsBefore(s);
    PreviousIsBefore(b);
    FewKept(Current(s));
    BeforeKept(s.history, Current(s), {Current(s), BOOTSTRAP}, keep + 2);
    PrunedBefore(s, keep);
  }

  lemma FewKept(hash: Hash)
    ensures |{hash, BOOTSTRAP}| <= 2
  {
  }

  lemma PrunedBefore(s: Store, keep: nat)
    requires Neat(s) && (Before(s.history, Current(s)) == NONE || Before(s.history, Current(s)) in Kept(s, keep))
    ensures Before(Pruned(s, keep).history, Current(s)) == Before(s.history, Current(s))
  {
    if s.history != [] {
      NeatCurrent(s);
      PruneKeepsCurrent(s, keep);
      SoundLink(Pruned(s, keep));
      BeforeIn(s.history, Current(s));
      hide Kept, Before;
      BeforeFiltered(s.history, Current(s), Pruned(s, keep).dirs);
    }
  }

  lemma {:induction false} BeforeIn(h: seq<Hash>, hash: Hash)
    ensures Before(h, hash) == NONE || Before(h, hash) in h
  {
    if h != [] { BeforeIn(h[..|h| - 1], hash); }
  }

  // ------------------------------------------------------------ the history as an undo stack

  /** A release follows a different one. */
  ghost predicate Alternates(t: seq<Hash>)
  {
    forall i :: 0 < i < |t| ==> t[i - 1] != t[i]
  }

  /** The history is base followed by the trail t, whose last release is current and whose
      releases are all still there. */
  ghost predicate EndsIn(s: Store, base: seq<Hash>, t: seq<Hash>)
  {
    t != [] && s.history == base + t && Alternates(t) && s.link == Last(t) && forall x :: x in t ==> x in s.dirs
  }

  /** What a successful apply does to the store. */
  function Committed(s: Store, hash: Hash, files: Files, keep: nat): Store
  {
    Pruned(Activated(Written(s, hash, files), hash), keep)
  }

  /** As long as there is room, the newest entries t are kept, each costing at most a place. */
  lemma {:induction false} KeepSetHasNewest(base: seq<Hash>, t: seq<Hash>, kept: set<Hash>, limit: nat)
    requires |kept| + |t| <= limit
    ensures forall x :: x in t ==> x in KeepSet(base + t, kept, limit)
    decreases |t|
  {
    if t != [] {
      var init, kept' := t[..|t| - 1], kept + {Last(t)};
      var h := base + t;
      assert h[..|h| - 1] == base + init && Last(h) == Last(t);
      assert kept' == kept || |kept'| == |kept| + 1;
      KeepSetHasNewest(base, init, kept', limit);
      KeepSetGrows(base + init, kept', limit);
      assert t == init + [Last(t)];
    }
  }

  /** The current release, which is kept anyway, costs nothing: of a trail that ends in it, keep
      more releases stay. */
  lemma KeepSetHasTrail(base: seq<Hash>, t: seq<Hash>, keep: nat)
    requires t != [] && |t| <= keep + 1
    ensures forall x :: x in t ==> x in KeepSet(base + t, {Last(t), BOOTSTRAP}, keep + 2)
  {
    KeepSetHasRest(base, t, {Last(t), BOOTSTRAP}, keep + 2);
  }

  lemma KeepSetHasRest(base: seq<Hash>, t: seq<Hash>, kept: set<Hash>, limit: nat)
    requires t != [] && Last(t) in kept && |kept| + |t| - 1 <= limit
    ensures forall x :: x in t ==> x in KeepSet(base + t, kept, limit)
  {
    hide KeepSet;
    var init := t[..|t| - 1];
    assert t == init + [Last(t)];
    KeepSetGrows(base + t, kept, limit);
    if init != [] {
      SkipKept(base, t, kept, limit);
      KeepSetHasNewest(base, init, kept, limit);
    }
  }

  /** A newest entry that is kept anyway costs nothing. */
  lemma SkipKept(base: seq<Hash>, t: seq<Hash>, kept: set<Hash>, limit: nat)
    requires t != [] && Last(t) in kept && |kept| < limit
    ensures KeepSet(base + t, kept, limit) == KeepSet(base + t[..|t| - 1], kept, limit)
  {
    var h := base + t;
    assert h[..|h| - 1] == base + t[..|t| - 1] && Last(h) == Last(t);
    assert kept + {Last(t)} == kept;
  }

  lemma {:induction false} FilteredTrail(base: seq<Hash>, t: seq<Hash>, dirs: map<Hash, Files>)
    requires forall x :: x in t ==> x in dirs
    ensures Filtered(base + t, dirs) == Filtered(base, dirs) + t
    decreases |t|
  {
    var h := base + t;
    if t != [] {
      var init := t[..|t| - 1];
      assert h[..|h| - 1] == base + init && Last(h) == Last(t);
      assert t == init + [Last(t)];
      FilteredTrail(base, init, dirs);
    } else {
      assert h == base;
    }
  }

  lemma NewestTrail(base: seq<Hash>, t: seq<Hash>) returns (base': seq<Hash>)
    requires |t| <= HISTORY
    ensures Newest(base + t) == base' + t &&
            |base' + t| <= HISTORY
  {
    var h := base + t;
    base' := if |h| > HISTORY then base[|h| - HISTORY..] else base;
  }

  /** A successful apply of another release adds it to the trail; pruning keeps the whole trail
      as long as it is not longer than keep + 1. */
  lemma CommitExtends(s: Store, base: seq<Hash>, t: seq<Hash>, hash: Hash, files: Files, keep: nat) returns (base': seq<Hash>)
    requires EndsIn(s, base, t) && Neat(s) && |t| <= keep < HISTORY && hash != NONE && hash != Last(t)
    ensures EndsIn(Committed(s, hash, files, keep), base', t + [hash]) &&
            Neat(Committed(s, hash, files, keep))
    ensures forall x :: x in t ==> Committed(s, hash, files, keep).dirs[x] == s.dirs[x]
  {
    var t' := t + [hash];
    var s1 := Activated(Written(s, hash, files), hash);
    NeatCurrent(s);
    CommitIsNeat(s, hash, files, keep);
    WriteIsSound(s, hash, files);
    ActivateIsSound(Written(s, hash, files), hash);
    PruneKeepsCurrent(s1, keep);
    var newest := NewestTrail(base, t');
    ActivatedHistory(s, base, t, hash, files);
    var dirs := Restrict(s1.dirs, Kept(s1, keep));
    KeepSetHasTrail(newest, t', keep);
    TrailHeld(s, base, t, hash, files);
    FilteredTrail(newest, t', dirs);
    base' := Filtered(newest, dirs);
    CommittedIs(s, hash, files, keep);
    AlternatesPush(t, hash);
    hide KeepSet, Filtered, Sound, Neat, Written, Activated, Alternates, Newest, Committed;
  }

  lemma CommitIsNeat(s: Store, hash: Hash, files: Files, keep: nat)
    requires Sound(s) && hash != NONE
    ensures var b := Committed(s, hash, files, keep); Neat(b) && b.link == hash
  {
    hide Neat, Sound, Written, Activated, Pruned;
    SwapIsNeat(s, hash, files);
    PruneIsNeat(Activated(Written(s, hash, files), hash), keep);
    CommittedIs(s, hash, files, keep);
  }

  lemma CommittedIs(s: Store, hash: Hash, files: Files, keep: nat)
    ensures var s1 := Activated(Written(s, hash, files), hash);
            var dirs := Restrict(s1.dirs, Kept(s1, keep));
            Committed(s, hash, files, keep) == Store(dirs, hash, Filtered(s1.history, dirs)) &&
            s1.dirs == Written(s, hash, files).dirs
  {
    hide KeepSet, Filtered, Restrict, Kept, Newest, Pushed;
  }

  lemma ActivatedHistory(s: Store, base: seq<Hash>, t: seq<Hash>, hash: Hash, files: Files)
    requires s.history == base + t && t != [] && Last(t) != hash
    ensures Activated(Written(s, hash, files), hash).history == Newest(base + (t + [hash]))
  {
    assert Last(s.history) == Last(t);
    assert s.history + [hash] == base + (t + [hash]);
    hide Newest;
  }

  lemma TrailHeld(s: Store, base: seq<Hash>, t: seq<Hash>, hash: Hash, files: Files)
    requires EndsIn(s, base, t)
    ensures forall x :: x in t + [hash] ==> x in Written(s, hash, files).dirs
    ensures forall x :: x in t ==> Written(s, hash, files).dirs[x] == s.dirs[x]
  {
    hide Alternates;
  }

  lemma AlternatesPush(t: seq<Hash>, hash: Hash)
    ensures Alternates(t) && t != [] && Last(t) != hash ==> Alternates(t + [hash])
  {
  }

  /** A rollback takes the last release off the trail. */
  lemma RollbackShortens(s: Store, base: seq<Hash>, t: seq<Hash>)
    requires EndsIn(s, base, t) && |t| >= 2 && Neat(s)
    ensures EndsIn(RolledBack(s), base, t[..|t| - 1]) &&
            Neat(RolledBack(s))
    ensures Previous(s) == t[|t| - 2] && RolledBack(s).dirs == s.dirs
  {
    var h, n := s.history, |s.history|;
    var prev := t[|t| - 2];
    hide Neat, Held, Previous, RolledBack;
    NeatCurrent(s);
    RolledBackIsNeat(s);
    assert h[n - 1] == t[|t| - 1] && h[n - 2] == prev && prev in t && prev != t[|t| - 1];
    InitHeld(h, s.dirs);
    LastTwo(s);
    assert h[..n - 1] == base + t[..|t| - 1];
    AlternatesInit(t);
  }

  lemma AlternatesInit(t: seq<Hash>)
    requires |t| >= 2 && Alternates(t)
    ensures Alternates(t[..|t| - 1]) && Last(t[..|t| - 1]) == t[|t| - 2] && forall x :: x in t[..|t| - 1] ==> x in t
  {
  }

  lemma LastTwo(s: Store)
    requires |s.history| >= 2 && Current(s) == Last(s.history)
    requires var prev := s.history[|s.history| - 2]; prev != Last(s.history) && prev in s.dirs && prev != NONE
    ensures var prev := s.history[|s.history| - 2];
            Previous(s) == prev &&
            RolledBack(s) == s.(link := prev, history := s.history[..|s.history| - 1])
  {
    var h, n := s.history, |s.history|;
    assert LastIndex(h, n, Current(s)) == n - 1;
    assert LastOther(s, n - 1, Current(s)) == n - 2;
    assert PoppedTo(h, h[n - 2]) == PoppedTo(h[..n - 1], h[n - 2]) == h[..n - 1];
  }

  datatype Release = Release(hash: Hash, files: Files)

  function CommittedAll(s: Store, rs: seq<Release>, keep: nat): Store
  {
    if rs == [] then s
    else Committed(CommittedAll(s, rs[..|rs| - 1], keep), rs[|rs| - 1].hash, rs[|rs| - 1].files, keep)
  }

  function RolledBackTimes(s: Store, n: nat): Store
  {
    if n == 0 then s else RolledBack(RolledBackTimes(s, n - 1))
  }

  /** The releases that were current, from a starting one on. */
  function Trail(start: Hash, rs: seq<Release>): (t: seq<Hash>)
    ensures |t| == |rs| + 1
  {
    if rs == [] then [start] else Trail(start, rs[..|rs| - 1]) + [rs[|rs| - 1].hash]
  }

  lemma {:induction false} CommitsExtend(s: Store, rs: seq<Release>, keep: nat) returns (base: seq<Hash>)
    requires Neat(s) && s.history != [] && |rs| <= keep < HISTORY
    requires Alternates(Trail(s.link, rs)) && forall r :: r in rs ==> r.hash != NONE
    ensures EndsIn(CommittedAll(s, rs, keep), base, Trail(s.link, rs)) &&
            Neat(CommittedAll(s, rs, keep))
    ensures s.link in Trail(s.link, rs)
    ensures CommittedAll(s, rs, keep).dirs[s.link] == s.dirs[s.link]
    decreases |rs|
  {
    hide Committed, Neat, Sound;
    if rs == [] {
      base := s.history[..|s.history| - 1];
      NeatCurrent(s);
      SoundLink(s);
    } else {
      var n := |rs| - 1;
      var t0 := Trail(s.link, rs[..n]);
      assert Trail(s.link, rs) == t0 + [rs[n].hash];
      AlternatesPrefix(t0, rs[n].hash);
      assert rs[n] in rs && forall r :: r in rs[..n] ==> r in rs;
      base := CommitsExtend(s, rs[..n], keep);
      base := CommitExtends(CommittedAll(s, rs[..n], keep), base, t0, rs[n].hash, rs[n].files, keep);
    }
  }

  lemma AlternatesPrefix(t: seq<Hash>, hash: Hash)
    requires t != [] && Alternates(t + [hash])
    ensures Alternates(t) && hash != Last(t)
  {
    var t' := t + [hash];
    forall i | 0 < i < |t|
      ensures t[i - 1] != t[i]
    {
      assert t'[i - 1] != t'[i];
    }
    assert t'[|t| - 1] != t'[|t|];
  }

  lemma {:induction false} RollbacksShorten(s: Store, base: seq<Hash>, t: seq<Hash>, n: nat)
    requires Neat(s) && EndsIn(s, base, t) && n < |t|
    ensures EndsIn(RolledBackTimes(s, n), base, t[..|t| - n]) &&
            Neat(RolledBackTimes(s, n))
    ensures RolledBackTimes(s, n).dirs == s.dirs
  {
    hide Neat, RolledBack, Previous;
    if n > 0 {
      RollbacksShorten(s, base, t, n - 1);
      var t' := t[..|t| - (n - 1)];
      RollbackShortens(RolledBackTimes(s, n - 1), base, t');
      assert t'[..|t'| - 1] == t[..|t| - n];
    } else {
      assert t[..|t|] == t;
    }
  }

  /** What the releases of the first applies were when these were done, they still are. */
  lemma {:induction false} TrailFilesStay(s: Store, rs: seq<Release>, m: nat, keep: nat)
    requires Neat(s) && s.history != [] && m <= |rs| <= keep < HISTORY
    requires Alternates(Trail(s.link, rs)) && forall r :: r in rs ==> r.hash != NONE
    ensures forall x :: x in Trail(s.link, rs[..m]) ==>
              x in Trail(s.link, rs) && x in CommittedAll(s, rs, keep).dirs && x in CommittedAll(s, rs[..m], keep).dirs &&
              CommittedAll(s, rs, keep).dirs[x] == CommittedAll(s, rs[..m], keep).dirs[x]
    decreases |rs|
  {
    hide Committed, Neat, Sound, Alternates;
    var base := CommitsExtend(s, rs, keep);
    if m == |rs| {
      assert rs[..m] == rs;
    } else {
      var n := |rs| - 1;
      var t0 := Trail(s.link, rs[..n]);
      assert Trail(s.link, rs) == t0 + [rs[n].hash];
      AlternatesPrefix(t0, rs[n].hash);
      assert rs[n] in rs && forall r :: r in rs[..n] ==> r in rs;
      assert rs[..n][..m] == rs[..m];
      TrailFilesStay(s, rs[..n], m, keep);
      base := CommitsExtend(s, rs[..n], keep);
      base := CommitExtends(CommittedAll(s, rs[..n], keep), base, t0, rs[n].hash, rs[n].files, keep);
    }
  }

  lemma {:induction false} TrailAt(start: Hash, rs: seq<Release>, m: nat)
    requires m <= |rs|
    ensures Trail(start, rs)[m] == Last(Trail(start, rs[..m]))
    decreases |rs|
  {
    if m == |rs| {
      assert rs[..m] == rs;
    } else {
      assert rs[..|rs| - 1][..m] == rs[..m];
      TrailAt(start, rs[..|rs| - 1], m);
    }
  }

  lemma TrailPrefixAlternates(start: Hash, rs: seq<Release>, m: nat)
    requires Alternates(Trail(start, rs)) && m <= |rs|
    ensures Alternates(Trail(start, rs[..m]))
    decreases |rs|
  {
    if m == |rs| {
      assert rs[..m] == rs;
    } else {
      AlternatesPrefix(Trail(start, rs[..|rs| - 1]), rs[|rs| - 1].hash);
      assert rs[..|rs| - 1][..m] == rs[..m];
      TrailPrefixAlternates(start, rs[..|rs| - 1], m);
    }
  }

  /** The undo stack: after k successful applies that each changed the release (k at most keep),
      with the starting release last in the history, j rollbacks lead to the release that was
      current j applies ago, with the files it had then; k of them lead back to the start. */
  lemma UndoStack(s: Store, rs: seq<Release>, keep: nat, j: nat)
    requires Neat(s) && s.history != []
    requires |rs| <= keep < 50 && j <= |rs|
    requires Alternates(Trail(s.link, rs)) && forall r :: r in rs ==> r.hash != NONE
    ensures var ago, undone := CommittedAll(s, rs[..|rs| - j], keep), RolledBackTimes(CommittedAll(s, rs, keep), j);
            var x := Current(undone);
            x == Current(ago) == Trail(s.link, rs)[|rs| - j] &&
            x in ago.dirs && x in undone.dirs && undone.dirs[x] == ago.dirs[x] &&
            (j == |rs| ==> x == s.link && undone.dirs[x] == s.dirs[x])
  {
    hide CommittedAll, RolledBackTimes, Alternates, Neat;
    var t, m := Trail(s.link, rs), |rs| - j;
    var base := CommitsExtend(s, rs, keep);
    RollbacksShorten(CommittedAll(s, rs, keep), base, t, j);
    assert Last(t[..|t| - j]) == t[m];
    assert t[m] in t[..|t| - j];
    TrailStart(s.link, rs);
    TrailAt(s.link, rs, m);
    TrailPrefixAlternates(s.link, rs, m);
    assert forall r :: r in rs[..m] ==> r in rs;
    TrailFilesStay(s, rs, m, keep);
    base := CommitsExtend(s, rs[..m], keep);
    assert Last(Trail(s.link, rs[..m])) in Trail(s.link, rs[..m]);
  }

  lemma {:induction false} TrailStart(start: Hash, rs: seq<Release>)
    ensures Trail(start, rs)[0] == start
    decreases |rs|
  {
    if rs != [] { TrailStart(start, rs[..|rs| - 1]); }
  }

  // ------------------------------------------------------------ a history that repeats a release

  const EMPTY_STORE := Store(map[], NONE, [])

  function Hashes(rs: seq<Release>): (hs: seq<Hash>)
    ensures |hs| == |rs|
  {
    if rs == [] then [] else Hashes(rs[..|rs| - 1]) + [rs[|rs| - 1].hash]
  }

  ghost predicate NoneTwice(hs: seq<Hash>)
  {
    forall i, j :: 0 <= i < j < |hs| ==> hs[i] != hs[j]
  }

  /** Distinct entries that just fill the places are kept, and nothing older. */
  lemma {:induction false} KeepSetExact(base: seq<Hash>, t: seq<Hash>, kept: set<Hash>, limit: nat)
    requires |kept| + |t| == limit && NoneTwice(t) && forall x :: x in t ==> x !in kept
    ensures forall x :: x in KeepSet(base + t, kept, limit) <==> x in kept || x in t
    decreases |t|
  {
    if t != [] {
      var init, last := t[..|t| - 1], Last(t);
      var h := base + t;
      assert h[..|h| - 1] == base + init && Last(h) == last;
      assert t == init + [last];
      LastApart(t);
      KeepSetExact(base, init, kept + {last}, limit);
    }
  }

  lemma LastApart(t: seq<Hash>)
    requires t != [] && NoneTwice(t)
    ensures Last(t) in t && NoneTwice(t[..|t| - 1]) && Last(t) !in t[..|t| - 1]
    ensures forall x :: x in t[..|t| - 1] ==> x in t
  {
  }

  lemma {:induction false} FilteredAll(h: seq<Hash>, dirs: map<Hash, Files>)
    requires Held(h, dirs)
    ensures Filtered(h, dirs) == h
    decreases |h|
  {
    if h != [] {
      FilteredAll(h[..|h| - 1], dirs);
      assert h == h[..|h| - 1] + [Last(h)];
    }
  }

  ghost predicate Among(h: seq<Hash>, t: seq<Hash>)
  {
    forall x :: x in h ==> x in t
  }

  /** A successful apply that prunes nothing: at most keep + 1 entries, and among them every
      release older entries name. */
  lemma PushUnpruned(s: Store, base: seq<Hash>, t: seq<Hash>, r: Release, keep: nat)
    requires Sound(s) && s.history == base + t && r.hash != NONE && (s.history == [] || Last(s.history) != r.hash)
    requires |t| <= keep && |base + t| < HISTORY && Among(base, t + [r.hash])
    ensures var b := Committed(s, r.hash, r.files, keep);
            b.link == r.hash &&
            b.history == s.history + [r.hash]
  {
    hide KeepSet, Filtered, Activated, Written, Committed, Restrict;
    var s1 := Activated(Written(s, r.hash, r.files), r.hash);
    WriteIsSound(s, r.hash, r.files);
    ActivateIsSound(Written(s, r.hash, r.files), r.hash);
    PushedHistory(s, r.hash, r.files);
    assert s.history + [r.hash] == base + (t + [r.hash]);
    KeepSetHasTrail(base, t + [r.hash], keep);
    CommittedIs(s, r.hash, r.files, keep);
    AllRestricted(s1, keep);
    FilteredAll(s1.history, Restrict(s1.dirs, Kept(s1, keep)));
  }

  lemma PushedHistory(s: Store, hash: Hash, files: Files)
    requires |s.history| < HISTORY && (s.history == [] || Last(s.history) != hash)
    ensures Activated(Written(s, hash, files), hash).history == s.history + [hash]
  {
    hide Written;
    HistoryStays(s, hash, files);
  }

  lemma HistoryStays(s: Store, hash: Hash, files: Files)
    ensures Written(s, hash, files).history == s.history
  {
  }

  lemma AllRestricted(s: Store, keep: nat)
    requires Held(s.history, s.dirs) && forall x :: x in s.history ==> x in Kept(s, keep)
    ensures Held(s.history, Restrict(s.dirs, Kept(s, keep)))
  {
    hide Kept;
  }

  lemma EmptyIsSound()
    ensures Sound(EMPTY_STORE) && EMPTY_STORE.history == []
    ensures forall keep :: CommittedAll(EMPTY_STORE, [], keep) == EMPTY_STORE
  {
  }

  lemma CommittedLast(s: Store, rs: seq<Release>, r: Release, keep: nat)
    ensures CommittedAll(s, rs + [r], keep) == Committed(CommittedAll(s, rs, keep), r.hash, r.files, keep)
  {
    hide Committed;
    assert (rs + [r])[..|rs|] == rs;
  }

  /** The two releases in the history, and the first of them again. */
  lemma TwoReleases(a: Release, b: Release, keep: nat)
    requires a.hash != b.hash && NONE !in {a.hash, b.hash} && 1 <= keep && keep + 3 <= HISTORY
    ensures var s := CommittedAll(EMPTY_STORE, [a, b, a], keep);
            Neat(s) && s.history == [a.hash, b.hash, a.hash] && s.link == a.hash
  {
    hide Committed, CommittedAll, Sound, Neat;
    EmptyIsSound();
    CommittedLast(EMPTY_STORE, [], a, keep);
    CommittedLast(EMPTY_STORE, [a], b, keep);
    CommittedLast(EMPTY_STORE, [a, b], a, keep);
    var s1 := CommittedAll(EMPTY_STORE, [a], keep);
    var s2 := CommittedAll(EMPTY_STORE, [a, b], keep);
    PushUnpruned(EMPTY_STORE, [], [], a, keep);
    CommitIsNeat(EMPTY_STORE, a.hash, a.files, keep);
    assert [] + [a] == [a] && [a] + [b] == [a, b] && [a, b] + [a] == [a, b, a];
    NeatCurrent(s1);
    PushUnpruned(s1, [], [a.hash], b, keep);
    CommitIsNeat(s1, b.hash, b.files, keep);
    NeatCurrent(s2);
    PushUnpruned(s2, [a.hash], [b.hash], a, keep);
    CommitIsNeat(s2, a.hash, a.files, keep);
  }

  /** Two releases, the first of them again, and then up to keep - 1 further ones. */
  lemma {:induction false} GrownHistory(a: Release, b: Release, cs: seq<Release>, keep: nat)
    requires a.hash != b.hash && NONE !in {a.hash, b.hash} && NONE !in Hashes(cs)
    requires NoneTwice(Hashes(cs)) && a.hash !in Hashes(cs) && b.hash !in Hashes(cs)
    requires |cs| < keep && keep + 3 <= HISTORY
    ensures var s := CommittedAll(EMPTY_STORE, [a, b, a] + cs, keep);
            Neat(s) && s.history == [a.hash, b.hash, a.hash] + Hashes(cs)
    decreases |cs|
  {
    hide Committed, CommittedAll, Neat, NoneTwice;
    if cs == [] {
      TwoReleases(a, b, keep);
      assert [a, b, a] + cs == [a, b, a];
    } else {
      var init, c := cs[..|cs| - 1], cs[|cs| - 1];
      HashesInit(cs);
      GrownHistory(a, b, init, keep);
      assert [a, b, a] + cs == ([a, b, a] + init) + [c];
      CommittedLast(EMPTY_STORE, [a, b, a] + init, c, keep);
      GrowsByOne(CommittedAll(EMPTY_STORE, [a, b, a] + init, keep), a.hash, b.hash, Hashes(init), c, keep);
    }
  }

  lemma HashesInit(cs: seq<Release>)
    requires cs != [] && NoneTwice(Hashes(cs))
    ensures var hs, c := Hashes(cs[..|cs| - 1]), cs[|cs| - 1].hash;
            Hashes(cs) == hs + [c] && NoneTwice(hs) && c !in hs && c in Hashes(cs) && forall x :: x in hs ==> x in Hashes(cs)
  {
    var hs, c := Hashes(cs[..|cs| - 1]), cs[|cs| - 1].hash;
    assert Last(Hashes(cs)) == c && Hashes(cs)[..|hs|] == hs;
    LastApart(Hashes(cs));
  }

  lemma GrowsByOne(s: Store, a: Hash, b: Hash, hs: seq<Hash>, c: Release, keep: nat)
    requires Neat(s) && s.history == [a, b, a] + hs && |hs| + 1 < keep && keep + 3 <= HISTORY
    requires c.hash != NONE && c.hash != a && c.hash !in hs
    ensures var s' := Committed(s, c.hash, c.files, keep);
            Neat(s') &&
            s'.history == [a, b, a] + (hs + [c.hash])
  {
    hide Committed, Neat, Sound;
    NeatCurrent(s);
    var t := [b, a] + hs;
    assert s.history == [a] + t;
    assert (t + [c.hash])[1] == a;
    assert Last(s.history) == if hs == [] then a else hs[|hs| - 1];
    PushUnpruned(s, [a], t, c, keep);
    CommitIsNeat(s, c.hash, c.files, keep);
    assert [a, b, a] + (hs + [c.hash]) == s.history + [c.hash];
  }

  /** The keep-th further release crowds out b, and with it its entry: the history then starts
      with the same release twice. */
  lemma DoubledHistory(a: Release, b: Release, cs: seq<Release>, keep: nat)
    requires a.hash != b.hash && NONE !in {a.hash, b.hash} && BOOTSTRAP !in {a.hash, b.hash}
    requires NONE !in Hashes(cs) && BOOTSTRAP !in Hashes(cs)
    requires NoneTwice(Hashes(cs)) && a.hash !in Hashes(cs) && b.hash !in Hashes(cs)
    requires |cs| == keep && 1 <= keep && keep + 3 <= HISTORY
    ensures var s := CommittedAll(EMPTY_STORE, [a, b, a] + cs, keep);
            Neat(s) && EndsIn(s, [a.hash], [a.hash] + Hashes(cs))
  {
    hide Committed, CommittedAll, Neat, EndsIn, NoneTwice;
    var init, c := cs[..keep - 1], cs[keep - 1];
    var hs := Hashes(init);
    HashesInit(cs);
    GrownHistory(a, b, init, keep);
    assert [a, b, a] + cs == ([a, b, a] + init) + [c];
    CommittedLast(EMPTY_STORE, [a, b, a] + init, c, keep);
    var s := CommittedAll(EMPTY_STORE, [a, b, a] + init, keep);
    NeatCurrent(s);
    CommitIsNeat(s, c.hash, c.files, keep);
    LastPush(s, a.hash, b.hash, hs, c, keep);
  }

  /** What the last push keeps: the newest keep releases, the first of the two, and not the other. */
  lemma LastKept(a: Hash, b: Hash, init: seq<Hash>, c: Hash, keep: nat)
    requires |init| + 1 == keep && a != b && NoneTwice(init) && c !in init && a !in init && b !in init
    requires BOOTSTRAP !in {a, b, c} && BOOTSTRAP !in init && c !in {a, b}
    ensures forall x :: x in KeepSet([a, b, a] + init + [c], {c, BOOTSTRAP}, keep + 2) <==>
              x == BOOTSTRAP || x == a || x == c || x in init
  {
    hide KeepSet, NoneTwice, Alternates;
    var kept, t := {c, BOOTSTRAP}, ([a] + init) + [c];
    assert [a, b, a] + init + [c] == [a, b] + t && t[..|t| - 1] == [a] + init;
    SkipKept([a, b], t, kept, keep + 2);
    AloneFirst(a, init);
    KeepSetExact([a, b], [a] + init, kept, keep + 2);
  }

  lemma AloneFirst(a: Hash, hs: seq<Hash>)
    ensures NoneTwice(hs) && a !in hs ==> NoneTwice([a] + hs) && Alternates([a] + hs)
  {
  }

  lemma FilteredDoubled(a: Hash, b: Hash, t: seq<Hash>, dirs: map<Hash, Files>)
    requires a in dirs && b !in dirs && forall x :: x in t ==> x in dirs
    ensures Filtered([a, b] + t, dirs) == [a] + t
  {
    FilteredTrail([a, b], t, dirs);
    assert [a, b][..1] == [a] && [a][..0] == [];
    assert Filtered([a], dirs) == Filtered([], dirs) + [a];
    assert Filtered([a, b], dirs) == Filtered([a], dirs) + [] == [a];
  }

  lemma LastPush(s: Store, a: Hash, b: Hash, init: seq<Hash>, c: Release, keep: nat)
    requires Neat(s) && |init| + 1 == keep && keep + 3 <= HISTORY && s.history == [a, b, a] + init
    requires a != b && NONE != c.hash && NoneTwice(init) && c.hash !in init && a !in init && b !in init
    requires BOOTSTRAP !in {a, b, c.hash} && BOOTSTRAP !in init && c.hash !in {a, b}
    ensures var s' := Committed(s, c.hash, c.files, keep);
            EndsIn(s', [a], [a] + (init + [c.hash]))
  {
    hide Neat, Sound, Filtered, Written, Activated, KeepSet, Kept, Committed, Restrict, Held, NoneTwice;
    var s0 := Written(s, c.hash, c.files);
    var s1 := Activated(s0, c.hash);
    var t := [a] + (init + [c.hash]);
    assert Last(s.history) == Last([a] + init) != c.hash;
    NeatCurrent(s);
    WriteIsSound(s, c.hash, c.files);
    ActivateIsSound(s0, c.hash);
    SoundHeld(s1);
    ActivatedHistory(s, [], s.history, c.hash, c.files);
    assert [] + (s.history + [c.hash]) == [a, b, a] + init + [c.hash] == [a, b] + t;
    var dirs := Restrict(s1.dirs, Kept(s1, keep));
    LastDirs(s1, a, b, init, c.hash, keep);
    FilteredDoubled(a, b, t, dirs);
    CommittedIs(s, c.hash, c.files, keep);
    NoneTwicePush(init, c.hash);
    AloneFirst(a, init + [c.hash]);
  }

  /** The directories left by the last push. */
  lemma LastDirs(s: Store, a: Hash, b: Hash, init: seq<Hash>, c: Hash, keep: nat)
    requires Held(s.history, s.dirs) && Current(s) == c && s.history == [a, b, a] + init + [c]
    requires |init| + 1 == keep && a != b && NoneTwice(init) && c !in init && a !in init && b !in init
    requires BOOTSTRAP !in {a, b, c} && BOOTSTRAP !in init && c !in {a, b}
    ensures var dirs := Restrict(s.dirs, Kept(s, keep));
            a in dirs && b !in dirs && forall x :: x in [a] + (init + [c]) ==> x in dirs
  {
    hide KeepSet, NoneTwice;
    var h := s.history;
    LastKept(a, b, init, c, keep);
    assert h[0] == a && h[|h| - 1] == c;
    assert forall i :: 0 <= i < |init| ==> h[3 + i] == init[i];
    forall x | x in [a] + (init + [c])
      ensures x in s.dirs && x in Kept(s, keep)
    {
      assert x == a || x == c || x in init;
      assert x in h;
    }
  }

  lemma NoneTwicePush(hs: seq<Hash>, c: Hash)
    ensures NoneTwice(hs) && c !in hs ==> NoneTwice(hs + [c])
  {
  }
}
