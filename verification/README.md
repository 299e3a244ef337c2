# Relay, verified: diffs, the balancer's scheduler, and engine switching

A Dafny model of the parts of Relay where a mistake would be hard to see, with proofs of what
they promise. `dafny verify dfyconfig.toml` checks all of it.

**The config diff** (`internal/apply/diff.go`). `EditGraph` is the reference: longest common
subsequences and the insert/delete distance on an edit graph extended past its edges, because the
forward pass may run past them. `EditScript` says what a valid and a shortest script is. `Myers` is
the algorithm, its in-place array included, and its backtrack over snapshots. `Hunks` renders a
script and has an independent patch machine that checks every number and line of a diff while
applying it.

**The balancer's scheduler and server state** (`internal/balancer`). `RoundRobin` is smooth weighted
round robin on values, with its balance and fairness. `Backend` holds every balancing algorithm on
objects, the weighted hash map included. `ServerState` is a server's health counter, admin state and
weight, as transitions and as the object that performs them. `StickTable` is the table of client
addresses, proved equal to a specification that knows no list. `SlidingAverage` is the timing average
in 64-bit arithmetic.

**Concurrency in the data plane.** `HashCache`, `ConnPool`, `IdleConn` and `Limiter` are interleaved
machines: a region under a lock is one step, and so is every atomic load or store and every channel
operation outside one. Their theorems are about every state of every run of any number of threads.
`CachedSlots` shows that the cache of `HashCache` is the hash map of `Backend`.

**Releases and engines** (`internal/agent`, `internal/apply/service.go`). `Releases` is the release
store with its history; `Agent` applies, rolls back, starts and boots one engine over it, for every
behaviour of the engine; `AgentRuns` is about all its runs from an empty root; `EngineSwitch` applies
versions to the proxy engines, load balancers and the tunnel, and undoes what failed. An engine counts
as *quiet* when it is down, the supervisor does not want it, and the next boot of its agent will not
start it.

## What the proofs found

- The diff is a shortest one up to an edit distance of 2000. Beyond, it is shortest exactly if the
  middles left after trimming share no line (`Myers.Myers`); 501 lines on either side of a shared one,
  against 501 others on either side of it, are an input where it is not (`Myers.DegradesBeyondLimit`).
- A failed apply restores the release and its files always, but the history only under a condition.
  A full history (50 entries) has lost its oldest entry; and a failed restart of the *same* release,
  when the history repeats it at its end, drops one of the two entries (`Agent.FailedApplyHistory`).
  Such a history arises by applies, pruning and rollbacks (`AgentRuns.DoublingRepeats`). A bootstrap
  release, which starts outside the history, is in it once an apply has failed after the swap.
- A relative weight command whose product overflows 64 bits is accepted and may store a weight outside
  0 .. 256 (`ServerState.OverflowedWeights`); `ServerState.StoredWeight` says exactly when.
- A rollback undoes a same-engine apply exactly if the apply changed the release and the history is not
  empty, or it did not change it and there is no older one (`Agent.RollbackUndoesApply`). It is not
  undone in two cases. The first apply to an engine on its bootstrap release, which is not in the
  history, stays (`AgentRuns.FirstApplyStays`): so a first version that fails late leaves its release on
  the proxy engine. And an apply of the release that was already active is undone by going to an older
  one (`AgentRuns.SameReleaseGoesBack`): so a version that fails late and left the proxy release
  unchanged takes the engine back to the release before the live one (`EngineSwitch.LiveIsBack`).
- A rollback that has a release to go to reloads or starts the engine, also one that was stopped for
  good; it leaves it down only if the start fails (`Agent.RollbackRuns`). So undoing what a version
  changed on a stopped load balancer that already had a release leaves it running that release
  (`AgentRuns.StoppedComesUp`).
- A prefix of the hash map holds more than a server's share less one slot per other server exactly if
  there is another server; alone, a server has exactly its share (`RoundRobin.MoreThanShare`).
- `put` of the stick table leaves a refreshed table unevicted: expired entries may stay until the next
  new key. No lookup can tell (`StickTable.LookupIsExpected`).

## Model

| member | source | states |
|---|---|---|
| `EditGraph.DistCorner` | internal/apply/diff.go:168-182 | Recurrence of the insert/delete distance on the edit graph extended past its edges: a diagonal is free, any other point is one edge beyond its nearer neighbour; the distance never shrinks along a diagonal step |
| `EditGraph.DistBeyond` | internal/apply/diff.go:178-185 | Past the corner (n, m) the distance grows by one per step, so the stop test `>=` cannot stop early at a point beyond it |
| `EditGraph.LcsTrimPrefix` | internal/apply/diff.go:119-132 | Trimming a common prefix takes exactly its length off the longest common subsequence |
| `EditGraph.LcsTrimSuffix` | internal/apply/diff.go:119-132 | Trimming a common suffix takes exactly its length off the longest common subsequence |
| `EditGraph.NoCommonLine` | internal/apply/diff.go:117-118 | The longest common subsequence is empty if and only if the two sequences share no line |
| `EditGraph.MiddleIs` | internal/apply/diff.go:119-132 | Trimming until it stops leaves exactly the middles, which are functions of the two inputs |
| `EditScript.ScriptReplays` | internal/apply/diff.go:95-98 | Replaying any valid script reads exactly the old lines between its cursors, in order, and writes exactly the new ones |
| `EditScript.ScriptLowerBound` | internal/apply/diff.go:117-118 | No valid script has fewer changes than the distance between its ends |
| `EditScript.ScriptExists` | internal/apply/diff.go:117-118 | Some valid script has exactly that many changes |
| `EditScript.ShortestIsDistance` | internal/apply/diff.go:117-118 | A script is shortest among all scripts if and only if it has len(a) + len(b) - 2 * LCS(a, b) changes |
| `Myers.FurthestIsMaximal` | internal/apply/diff.go:170-182 | A slot that holds the furthest point of d edges on a diagonal: every point of that diagonal is within d edges exactly if it is not beyond it |
| `Myers.NoFurther` | internal/apply/diff.go:172-181 | From the forward choice on, the first point without a diagonal is the last one d edges reach |
| `Myers.SlideIsDiagonal` | internal/apply/diff.go:213-219 | Between the start of the forward choice and the furthest point every step is a free diagonal, which is what backtracking emits as kept lines |
| `Myers.StopsAtCorner` | internal/apply/diff.go:183-185 | The first point at or beyond the corner is exactly (n, m), and the round is the true distance |
| `Myers.RoundWrites` | internal/apply/diff.go:170-182 | Writing slot k leaves alone every slot the round still reads: those have the other parity |
| `Myers.RoundBack` | internal/apply/diff.go:205-214 | The snapshot of a round repeats its forward choice: the point it names was furthest one round earlier, and free edges lead from there on |
| `Myers.Reach` | internal/apply/diff.go:171-181 | One diagonal of a round: given what d - 1 edges reach on its neighbours, the result is the furthest point d edges reach |
| `Myers.Round` | internal/apply/diff.go:170-186 | One round in place: it ends with every visited slot furthest for d edges and the distance greater than d, or it finds the corner, at distance d |
| `Myers.SlideBack` | internal/apply/diff.go:215-219 | The kept lines of one round, walked backwards to the point the forward choice started from |
| `Myers.Backtrack` | internal/apply/diff.go:194-234 | From furthest snapshots the backtrack builds a script that turns a into b with one change per round after the first; every snapshot index it uses is covered |
| `Myers.ReplaceAll` | internal/apply/diff.go:146-155 | The fallback is a valid script too, with len(a) + len(b) changes |
| `Myers.MyersCore` | internal/apply/diff.go:144-192 | For all inputs a valid script; with exactly the distance as its number of changes up to 2000, and replacing everything beyond; all array and slice indices are in range |
| `Myers.TrimKeepsDistance` | internal/apply/diff.go:119-132 | Trimming the common prefix and suffix keeps the insert/delete distance |
| `Myers.TrimPrefix` | internal/apply/diff.go:119-123 | The length of the longest common prefix |
| `Myers.TrimSuffix` | internal/apply/diff.go:124-127 | The length of the longest common suffix behind it |
| `Myers.Myers` | internal/apply/diff.go:117-140 | For all inputs a valid script from corner to corner. It is shortest among all scripts if and only if the distance is at most 2000 or the trimmed middles (a function of the inputs) share no line; its number of changes is given in both cases |
| `Myers.DegradesBeyondLimit` | internal/apply/diff.go:187-191 | Inputs at which it is not shortest: n lines, a line both share, n lines, against n other lines around the same line, for every n with 4 * n over 2000 |
| `Hunks.TurnsBySteps` | internal/apply/diff.go:95-98 | Every edit of a valid script carries the cursor before it, and the next edit (or the end) the cursor after it |
| `Hunks.KeptRun` | internal/apply/diff.go:242-244 | A run of kept lines moves both cursors by its length over equal text |
| `Hunks.HunkEnd` | internal/apply/diff.go:252-271 | Where a hunk ends: everything in it is within ctx of a change, and no change outside it is within ctx of what it shows |
| `Hunks.RenderHunk` | internal/apply/diff.go:272-305 | Header and lines of one hunk, with the zero-length rule of the POSIX.1-2017 diff utility ("Diff -u or -U Output Format") |
| `Hunks.HunkPatches` | internal/apply/diff.go:272-305 | A hunk takes a checking patch machine from the previous hunk to its own end: start positions fit, both line counts are used up exactly, all line numbers and texts agree |
| `Hunks.HunkShows` | internal/apply/diff.go:248-271 | From the end of one hunk to the end of the next, exactly the edits of the hunk are within ctx of a change |
| `Hunks.Hunks` | internal/apply/diff.go:236-309 | For every valid script and every context size: the patch applies to a and gives b (so hunks are ordered and do not touch), and without its headers it is exactly the edits within ctx of a change, each once |
| `Hunks.ChangesAreShown` | internal/apply/diff.go:276-296 | The edits near a change include every inserted and deleted line, once |
| `Hunks.ShownExactly` | internal/apply/diff.go:248-271 | Lines that are the edits near a change, in order, are the edits at exactly the positions that have a change at most ctx before or after them, each once |
| `Hunks.DiffLines` | internal/apply/diff.go:100-115 | The whole diff on split lines: it patches a into b; without its headers it shows, in order, exactly the edits of a script from a to b that are at most 3 from a change; its counts are the added and removed lines it shows, the least possible up to distance 2000, and beyond it the two middles left after trimming |
| `RoundRobin.BestIsFirstHighest` | internal/balancer/lb.go:99-112 | The scan picks the first of the servers with the highest current weight, and none only if none may be picked |
| `RoundRobin.SumStaysZero` | internal/balancer/lb.go:93-117 | From zero the current weights sum to zero after every pick |
| `RoundRobin.StepConserves` | internal/balancer/lb.go:93-117 | Also with a server excluded, and from any current weights: a pick keeps the sum over the servers that may be picked, leaves the excluded one alone, and sets one that takes nothing to zero |
| `RoundRobin.Balance` | internal/balancer/lb.go:93-117 | After k picks from zero a server's current weight is k * weight - total * picks, and at least 1 - total |
| `RoundRobin.FullRound` | internal/balancer/lb.go:93-117 | After total picks each server was picked exactly weight times and all current weights are zero again |
| `RoundRobin.Fair` | internal/balancer/lb.go:93-117 | Every window of total consecutive picks, wherever it starts, picks each server exactly weight times |
| `RoundRobin.PrefixBounds` | internal/balancer/lb.go:213-224 | In any prefix of t picks: at most ceil(t * w / total) picks of a server, and t * w - total * picks at most (n - 1) * (total - 1) |
| `RoundRobin.MoreThanShare` | internal/balancer/lb.go:213-224 | More than t * w / total - (n - 1) picks in every prefix if and only if there is another server with weight |
| `Backend.NewLightest` | internal/balancer/lb.go:129-138 | A server lighter than the lightest so far, by cross products, is lighter than all before it |
| `Backend.HashMapIsFair` | internal/balancer/lb.go:183-227 | In the hash map each usable server stands exactly weight times and an unusable one never, and every prefix of t slots holds each at most ceil(t * w / total) times and, exactly if n >= 2, more than t * w / total - (n - 1) times |
| `Backend.SlotsCover` | internal/balancer/lb.go:190-227 | Every usable server has a slot, and only usable servers do |
| `Backend.Backend.FirstBackup` | internal/balancer/lb.go:84-91 | The first usable backup in declaration order other than the excluded one; none only if there is none |
| `Backend.Backend.PickFirst` | internal/balancer/lb.go:65-71 | The first usable active server other than the excluded one; none only if there is none |
| `Backend.Backend.PickRR` | internal/balancer/lb.go:93-117 | One in-place pass makes exactly one step of the weighted round over the current states; none only if no server is allowed |
| `Backend.Backend.PickInTurn` | internal/balancer/lb.go:93-117 | Round robin over many selections from zero, while no state changes and some server has weight: selection t is the t-th of the weighted rounds, and of any Total consecutive ones each server gets exactly its weight |
| `Backend.Backend.Raise` | internal/balancer/lb.go:99-108 | One server of the pass: raised by its weight, reset if unusable, untouched if excluded |
| `Backend.Backend.PickLeastConn` | internal/balancer/lb.go:119-140 | The first server in rotation order that minimises (sessions + 1) / weight among the allowed ones; none only if there is none; the rotation counter wraps at 2^64 |
| `Backend.Backend.Entries` | internal/balancer/lb.go:200-212 | The usable servers in order with their weights and the sum of these |
| `Backend.Backend.BuildSlots` | internal/balancer/lb.go:213-224 | The slots are a whole smooth weighted round from zero |
| `Backend.Backend.RaiseAll` | internal/balancer/lb.go:216-221 | Raises every entry and finds the first highest |
| `Backend.Backend.Slots` | internal/balancer/lb.go:190-227 | The slots returned are those of the current states, cached under the version loaded first |
| `Backend.Backend.PickHash` | internal/balancer/lb.go:229-242 | The first slot from the hash on that is not the excluded server's; none only if no server is allowed |
| `Backend.Backend.Draw` | internal/balancer/lb.go:154-167 | A draw r falls on the server whose weight interval holds r, counting allowed servers in order; the loop never runs out |
| `Backend.Backend.PickRandom` | internal/balancer/lb.go:142-181 | Of the servers that two draws modulo the total weight fall on, the second if it is less loaded per weight, otherwise the first; none exactly if no server is allowed |
| `Backend.CrossProducts` | internal/balancer/lb.go:129-136 | The integer cross products compare the loads as fractions of the weights: (sessions + 1) / weight for leastconn, sessions / weight for random |
| `Backend.Backend.Choose` | internal/balancer/lb.go:54-74 | The choice among the active servers, by algorithm: under leastconn the first in rotation order that minimises (sessions + 1) / weight, under source and uri the first allowed slot of the current map from the hash on, under random the less loaded of the two drawn, under first the first allowed, under roundrobin the next of the weighted round over the current weights; none exactly if none is allowed |
| `Backend.Backend.Pick` | internal/balancer/lb.go:51-82 | For every algorithm: none exactly if no server is usable; if an active other than the excluded one is usable, the one its algorithm chooses, as in Choose; only otherwise a backup, the first usable one, and the excluded one only as the last resort. Under roundrobin the current weights move by exactly one round, under leastconn the rotation counter by one; nothing else moves |
| `HashCache.StepKeepsInv` | internal/balancer/lb.go:190-227 | Every atomic step of lookups and changes keeps the invariant about the cache, the lock and half-done rebuilds |
| `HashCache.ChangeKeepsInv` | internal/balancer/state.go:142-156 | A change that has stored but not bumped, or its bump, leaves no loaded version fresh |
| `HashCache.RunKeepsInv` | internal/balancer/lb.go:190-227 | The invariant holds in every state of every interleaving |
| `HashCache.CacheIsCoherent` | internal/balancer/lb.go:190-227 | In every interleaving, while no change is between its stores and its bump, a cached map of the current version, and the result of a lookup of it, is the map rebuilt from the current states |
| `HashCache.ChangeTakesEffect` | internal/balancer/state.go:142-156 | A change stores and then bumps: that ends it, with what it stored in force and every map cached before of an older version |
| `HashCache.LookupIsReused` | internal/balancer/lb.go:190-227 | A lookup that ends has its map cached: while the version stays, the next lookup is given the same map without the lock |
| `HashCache.LookupGoesOn` | internal/balancer/lb.go:190-227 | No lookup is stuck: each can take its next step, or waits for a lock whose holder can |
| `CachedSlots.RebuiltIsSlots` | internal/balancer/lb.go:204-226 | The map rebuilt from published flags and weights is, server by server, the one and only hash map of the server objects that published them |
| `CachedSlots.CacheServesSelection` | internal/balancer/lb.go:190-227 | In every run the cached map of the current version is what the sequential selection requires of its cache, while no change is half done |
| `StickTable.Table.Get` | internal/balancer/lb.go:298-312 | A lookup returns the unexpired server of the key and drops an expired entry; map and list stay the same distinct entries |
| `StickTable.Table.Put` | internal/balancer/lb.go:314-325 | A store refreshes and moves an existing entry to the front, or adds one and evicts; map and list stay linked and within size |
| `StickTable.Table.EvictLocked` | internal/balancer/lb.go:327-337 | Drops from the back until the table fits and its last entry is not expired |
| `StickTable.Table.Configure` | internal/balancer/lb.go:291-296 | New bounds take effect with an eviction |
| `StickTable.GetLeaves` | internal/balancer/lb.go:298-312 | A lookup that finds nothing leaves the table without the key; any other leaves it alone |
| `StickTable.EvictedIs` | internal/balancer/lb.go:327-337 | Eviction of any table leaves the longest front part that fits the size and does not end in an expired item |
| `StickTable.PutLeaves` | internal/balancer/lb.go:314-325 | A store puts its item in front of those of the other keys; a refresh drops none of them, and with a new key a table within its size is left |
| `StickTable.EvictedIsLive` | internal/balancer/lb.go:327-337 | Where expiries do not grow towards the back, eviction leaves exactly the first size unexpired items |
| `StickTable.PutTracks` | internal/balancer/lb.go:314-337 | After a store the table's unexpired part is still the first size unexpired items of a table without bounds |
| `StickTable.RunTracks` | internal/balancer/lb.go:298-337 | The same over every history of stores and lookups |
| `StickTable.Recency` | internal/balancer/lb.go:314-325 | Without bounds, a key's item is its last store and the keys in front of it are those stored since |
| `StickTable.LookupIsExpected` | internal/balancer/lb.go:298-337 | Over every history with a clock that does not go back, for every size and expiry: a lookup hits exactly if the key's last store is unexpired and fewer than size distinct other keys were stored since, and returns that store's server; the table never exceeds its size |
| `ServerState.EventKeepsSound` | internal/balancer/state.go:158-327 | Every load, check, admin change, forced health and weight keeps: flags published, 0 <= health <= rise + fall - 1 of a checked server, running exactly if health >= rise |
| `ServerState.RunIsSound` | internal/balancer/state.go:158-327 | The same in every state of every sequence of events that starts with a load |
| `ServerState.UsableExactly` | internal/balancer/state.go:132-156 | In every state of every run that starts with a load, the balancer may use a server exactly if it runs, is resolved, is neither in drain nor in maintenance, and has a positive weight |
| `ServerState.SetAsideStaysOut` | internal/balancer/state.go:279-306 | From a command to drain or maintenance on, a server is out of use, whatever else happens, until the next admin command or a load whose configuration changes its state |
| `ServerState.FirstLoad` | internal/balancer/state.go:162-170 | A first load leaves a server up, in the state and with the weight of the configuration; its first failed check brings it down |
| `ServerState.BumpsAreChanges` | internal/balancer/state.go:142-327 | Exactly which events bump the version: every load, a change of whether the server runs or of its admin state, and a weight that is not the one stored |
| `ServerState.SilentEventsChangeNothing` | internal/balancer/state.go:279-327 | An event that does not bump the version changes neither flags nor weight |
| `ServerState.CounterDetects` | internal/balancer/state.go:226-252 | From every counter value and over every sequence of results the counter simulates a detector that goes down after fall failures in a row and up after rise successes in a row, and holds the current streak |
| `ServerState.ChecksDetect` | internal/balancer/state.go:215-252 | Between other events a checked server runs exactly as that detector says |
| `ServerState.ReloadMerges` | internal/balancer/state.go:158-207 | On a reload the configuration's state and weight win exactly where they changed; whether the server runs is kept unless checks are switched on or off, which brings it up; results of checks under way no longer count |
| `ServerState.ReloadKeepsCounter` | internal/balancer/state.go:171-200 | What a reload leaves of the health counter: rise where checks are switched on, and of a checked server the old value, moved only as far as the new thresholds force it |
| `ServerState.ReloadOfSame` | internal/balancer/state.go:158-207 | Loading the definition in force changes nothing but the check generation |
| `ServerState.LeavingMaintenance` | internal/balancer/state.go:279-296 | Checks do not count in maintenance; leaving it, a checked server is up and the first failed check brings it down |
| `ServerState.AdminChangeIsAll` | internal/balancer/state.go:279-296 | Every other admin change changes nothing but the admin state and what follows from it for the flags |
| `ServerState.ForcedHealth` | internal/balancer/runtimeapi.go:226-240 | Forced up, a server goes down after exactly fall failures in a row; forced down, it comes up after exactly rise successes |
| `ServerState.StatusFractions` | internal/balancer/state.go:358-381 | The fractions of the status string lie in 1 .. fall - 1 and 1 .. rise - 1, and say how many more failures or successes it takes |
| `ServerState.StatusNames` | internal/balancer/state.go:358-381 | Which of the status names a server shows, by its admin state, whether it runs, and whether its checks have moved the counter from the end of its range |
| `ServerState.DowntimeIsTimeDown` | internal/balancer/state.go:344-350 | Over every run the reported downtime grows by exactly the time the server was not running |
| `ServerState.SrvState.Reconfigure` | internal/balancer/state.go:162-200 | A new definition's state and weight win where the configuration changed them; the counter is fitted to the new thresholds |
| `ServerState.SrvState.ApplyConfig` | internal/balancer/state.go:158-207 | The object's reload is the load transition |
| `ServerState.SrvState.CheckResult` | internal/balancer/state.go:215-277 | The object's check result is the check transition; the version is bumped exactly if the server goes up or down |
| `ServerState.SrvState.SetAdminState` | internal/balancer/state.go:279-306 | The object's admin change is the admin transition, and bumps the version exactly if the state differs |
| `ServerState.SrvState.ForceHealthState` | internal/balancer/runtimeapi.go:226-251 | The object's forced health is the transition, and bumps the version exactly if the server's running state changes |
| `ServerState.SrvState.SetUserWeight` | internal/balancer/state.go:323-327 | The low 32 bits of the weight are stored; the version is bumped exactly if the old weight differs from the whole number |
| `ServerState.StoredWeight` | internal/balancer/runtimeapi.go:203-224 | A weight command is refused exactly if its number is negative or an absolute weight is over 256. What an accepted one stores is what it means as long as the 64-bit product does not overflow; beyond, it is in 0 .. 256 if and only if the wrapped product is above -100 or the low 32 bits of its hundredth are at most 256 |
| `ServerState.OverflowedWeights` | internal/balancer/runtimeapi.go:218 | Two accepted commands that store -1 and 7699 |
| `SlidingAverage.Swrate.Add` | internal/balancer/counters.go:68-80 | The object's sum and count follow the step in 64-bit arithmetic; what the step promises is in the rows below |
| `SlidingAverage.Swrate.Avg` | internal/balancer/counters.go:82-89 | The average read as a signed number |
| `SlidingAverage.WindowStep` | internal/balancer/counters.go:76-78 | Giving up a 1024th, rounded up, and taking a sample in keeps the sum between 1024 times the bounds |
| `SlidingAverage.Bounds` | internal/balancer/counters.go:60-80 | For every stream of samples in [low, high] the sum stays between n times the bounds without overflow or underflow, and is the exact sum up to 1024 samples |
| `SlidingAverage.AverageIsBounded` | internal/balancer/counters.go:60-89 | The average of every nonempty stream is within the samples' bounds, and up to 1024 samples the floor of their mean |
| `SlidingAverage.FullWindowFollows` | internal/balancer/counters.go:76-78 | A full window follows its samples: the sum grows exactly if it is at most 1024 * (v - 1), shrinks exactly if it is above 1024 * v, and never passes 1024 * v |
| `SlidingAverage.AverageFollows` | internal/balancer/counters.go:60-89 | After any samples up to high, 1024 + 1024 * high or more samples of v bring the average to v - 1 or v, and keep it there |
| `SlidingAverage.NegativeIsZero` | internal/balancer/counters.go:69-71 | A negative sample counts as 0 |
| `Limiter.StepKeepsCount` | internal/balancer/listener.go:44-72 | Every step keeps: the counter is the number of slots held by accept loops and connections |
| `Limiter.RunKeepsInv` | internal/balancer/listener.go:22-72 | The counter, the once-only releases and the wake rule hold in every state of every interleaving |
| `Limiter.LimiterIsSafe` | internal/balancer/listener.go:292-350 | The counter is the number of slots held; each accepted connection holds its slot or has released it exactly once; no loop sleeps on an open channel unless 0 < max <= cur |
| `Limiter.FreeSlotWakes` | internal/balancer/listener.go:44-65 | A sleeping loop can go on whenever a slot is free |
| `Limiter.LookTakesOrSleeps` | internal/balancer/listener.go:44-65 | A loop that looks takes a slot exactly if one is free, and otherwise sleeps on the channel that the next release or change of the limit closes |
| `Limiter.FailedAcceptRetries` | internal/balancer/listener.go:292-350 | A loop whose accept fails for now gives its slot back and can take one again |
| `Limiter.LoopEnds` | internal/balancer/listener.go:292-350 | A loop that gives up, or whose accept fails for good, never takes a slot again |
| `Limiter.RaisedLimitAdmits` | internal/balancer/listener.go:30-65 | A limit raised above the slots held, or removed, wakes any sleeper, and its next look takes a slot |
| `Limiter.CloseAdmits` | internal/balancer/listener.go:44-121 | The close of a connection hands its slot over: unless more slots are held than the limit allows, it wakes any sleeper, whose next look takes the slot |
| `Limiter.NeverRaisedAbove` | internal/balancer/listener.go:44-52 | No step raises the counter above a positive limit, also after the limit was lowered |
| `Limiter.LimitHolds` | internal/balancer/listener.go:30-52 | Once within a positive limit, the counter stays within it until the limit is lowered |
| `IdleConn.StepKeepsInv` | internal/balancer/conn.go:34-66 | Every step keeps: a kicked connection with a future deadline has a thread that still puts it into the past |
| `IdleConn.KickWins` | internal/balancer/conn.go:34-66 | In every interleaving of extends and kicks, once a kick has ended and none is under way the deadline is in the past |
| `IdleConn.OnlyKicksInterrupt` | internal/balancer/conn.go:34-66 | Before a kick a deadline pushed into the future stays there, in every interleaving of extends |
| `IdleConn.KickedForGood` | internal/balancer/conn.go:34-66 | An extend begun after a kick never pushes: once the deadline of a kicked connection is in the past and no earlier extend is under way, it is so in every later state |
| `IdleConn.KickMayLag` | internal/balancer/conn.go:43-48 | Before an extend's second look at the flag, the deadline of a finished kick can be in the future: a run that shows it |
| `ConnPool.StepKeepsInv` | internal/balancer/conn.go:183-254 | Every step of get, put, watch and close keeps the invariant about the idle list, the threads' connections and the watchers |
| `ConnPool.RunKeepsInv` | internal/balancer/conn.go:183-254 | The invariant holds, and every connection is with its owner, in every state of every interleaving |
| `ConnPool.OwnedByOne` | internal/balancer/conn.go:173-254 | No connection is held by two of pool, threads and watchers, and exactly the open ones are held by one: none is used after its close or closed twice; at most 128 are idle, none after close |
| `ConnPool.GetHandsOutQuiet` | internal/balancer/conn.go:183-204 | Get hands out the connection it took if and only if its watcher, which has finished, saw a timeout, neither data nor EOF, and closes it otherwise; no other watcher of it is at work |
| `ConnPool.GetTakesNewest` | internal/balancer/conn.go:183-195 | A get of a pool with idle connections takes the one put back last |
| `ConnPool.PutThenGet` | internal/balancer/conn.go:183-218 | A connection put into an open pool with room is there, and the next get takes it |
| `ConnPool.GetEnds` | internal/balancer/conn.go:183-204 | A get whose watcher has signalled ends by its own steps, with the connection if the watcher saw a timeout and with its close otherwise |
| `ConnPool.RefusedIsClosed` | internal/balancer/conn.go:206-212 | A connection given up, or refused by a pool that is closed or holds 128, is closed, and the pool stays as it is |
| `ConnPool.ClosedStaysEmpty` | internal/balancer/conn.go:206-254 | Once closed the pool is empty in every later state |
| `ConnPool.KickedIsAnswered` | internal/balancer/conn.go:196-240 | A get never waits for nothing: the watcher of a kicked connection has signalled, or has a next step it can take |
| `ConnPool.SignalsOnce` | internal/balancer/conn.go:220-240 | A watcher closes its own channel, which nothing has closed before |
| `Releases.Releases.Remove` | internal/agent/releases.go:113-123 | Removes a release that is neither current nor in the history |
| `Releases.Releases.Bootstrap` | internal/agent/server.go:150-162 | Writes the bootstrap release afresh and links it outside the history |
| `Releases.Releases.Activate` | internal/agent/releases.go:142-155 | Links a release and records it, keeping 50 entries |
| `Releases.Releases.Revert` | internal/agent/releases.go:157-175 | Drops the failed release from the end of the history and goes back |
| `Releases.Releases.FindPrevious` | internal/agent/releases.go:177-194 | The release activated before the current one that still has its directory |
| `Releases.Releases.Rollback` | internal/agent/releases.go:196-216 | Goes back to it, popping the history to its entry; a store without one stays as it is |
| `Releases.Releases.KeepNewest` | internal/agent/releases.go:238-243 | The releases to keep: the current and the bootstrap one, and the newest of the history while there is room |
| `Releases.Releases.TrimHistory` | internal/agent/releases.go:253-260 | Drops exactly the history entries without a directory, in order |
| `Releases.Releases.Prune` | internal/agent/releases.go:237-261 | Both: what is left of the directories and of the history |
| `Releases.PruneKeepsCurrent` | internal/agent/releases.go:237-261 | Pruning never deletes the current release or changes its files; what it leaves was there before |
| `Releases.RemoveIsSound` | internal/agent/releases.go:113-123 | Removing never takes away the current release or one that the history names, and leaves every other release alone |
| `Releases.PruneBounds` | internal/agent/releases.go:237-261 | Pruning leaves at most keep + 2 releases |
| `Releases.PreviousOf` | internal/agent/releases.go:177-194 | In any sound store: the previous release is the last other one in the history before the last entry of the current one; a current release that is not in the history has none |
| `Releases.PreviousIsBefore` | internal/agent/releases.go:177-194 | So where the history ends in the current release, it is the last other entry |
| `Releases.PruneKeepsPrevious` | internal/agent/releases.go:177-261 | Pruning leaves the way back: the release a rollback would go to stays the same |
| `Releases.KeepSetHasTrail` | internal/agent/releases.go:238-243 | Of a history that ends in the current release, its newest keep + 1 entries survive pruning |
| `Releases.CommitExtends` | internal/agent/releases.go:142-155 | A successful apply of another release adds it to the undo trail, and pruning keeps the whole trail and its files |
| `Releases.RollbackShortens` | internal/agent/releases.go:177-216 | A rollback takes exactly the last release off the trail |
| `Releases.TrailFilesStay` | internal/agent/releases.go:142-261 | Later applies and their pruning leave the files of every release of the trail as they were |
| `Releases.UndoStack` | internal/agent/releases.go:142-261 | From a release in the history: after k <= keep successful applies that each changed the release, j rollbacks lead to the release current j applies ago, with the files it had then; k of them lead back to the start and its files |
| `Releases.DoubledHistory` | internal/agent/releases.go:237-261 | Two releases, the first again and keep others leave a history that starts with the first release twice: pruning has dropped what stood between |
| `Agent.EngineAgent.Boot` | internal/agent/server.go:143-178 | The object's boot is the boot transition |
| `Agent.EngineAgent.StartAndWait` | internal/agent/server.go:360-381 | An engine that does not stay up is stopped and not wanted |
| `Agent.EngineAgent.Apply` | internal/agent/server.go:247-306 | The object's apply, in the order of its file, marker and engine operations, is the apply transition and gives its response; what that transition promises is in the rows below |
| `Agent.EngineAgent.GoOn` | internal/agent/server.go:308-358 | What follows the swap: stop, reload or start |
| `Agent.EngineAgent.ReloadNew` | internal/agent/server.go:320-335 | The reload branch and its way back |
| `Agent.EngineAgent.StartNew` | internal/agent/server.go:336-358 | The start branch and its way back |
| `Agent.EngineAgent.Rollback` | internal/agent/server.go:393-439 | The object's rollback is the rollback transition |
| `Agent.EngineAgent.StartCall` | internal/agent/server.go:441-453 | The object's start is the start transition |
| `Agent.EngineAgent.StopCall` | internal/agent/server.go:455-463 | The object's stop is the stop transition: an engine that is always on starts again with its agent |
| `Agent.ApplyOutcome` | internal/agent/server.go:247-358 | What an apply reports and leaves in the store, by the stage at which it ended |
| `Agent.ApplyIsSound` | internal/agent/server.go:247-358 | Every apply leaves a sound store (the link and every history entry name releases that are there), whose current release is the requested one exactly after a success that was not a bare stop |
| `Agent.ApplyIsNeat` | internal/agent/server.go:247-358 | Every apply leaves the current release last in the history; without a history only the bootstrap release can be current |
| `Agent.ApplyIsGood` | internal/agent/server.go:247-358 | Every apply keeps, beside that: only a wanted engine runs, and none is wanted whose marker is set |
| `Agent.FailedApplyKeepsReleases` | internal/agent/server.go:247-358 | For every outcome of validate, reload and start: a failed apply leaves the current release and all files as before, at most adding the requested release, and one refused before the swap leaves everything as it was |
| `Agent.FailedApplyHistory` | internal/agent/releases.go:157-175 | A failed apply leaves the history as it was if and only if it was refused before the swap, or: without a history there was no release either (a bootstrap release is recorded now), and with one it was not full (another release) or did not repeat the current release at its end (the same one) |
| `Agent.FailedApplyKeepsServing` | internal/agent/server.go:320-351 | A running engine still runs after a failed apply if it survived the reload or its release starts again |
| `Agent.BootStarts` | internal/agent/server.go:143-178 | A boot starts exactly an engine with a release and no marker and keeps both; it gives an engine without a release its bootstrap release with the files shipped, which of two proxy engines only the selected one runs |
| `Agent.QuietStaysDown` | internal/agent/server.go:143-178 | An engine that is down with its marker set, or without a release, is not started by the next boot of its agent |
| `Agent.FailedApplyStaysQuiet` | internal/agent/server.go:336-351 | A failed apply leaves an engine that was down for good down for good |
| `Agent.StopIsQuiet` | internal/agent/server.go:259-306 | A stop always succeeds and leaves the engine down for good |
| `Agent.StopSticks` | internal/agent/server.go:455-463 | A user's stop keeps the release; the next boot starts the engine again exactly if it is one that always runs and its marker was not set before |
| `Agent.MarkerAfterApply` | internal/agent/server.go:259-351 | The marker after every apply: set by a stop, off after any other success, and after a failure as it was, except that an engine nobody wanted, and that is not always on, is stopped for good when it does not come up |
| `Agent.AppliedBoots` | internal/agent/server.go:247-358 | After a successful apply that is no stop the engine runs the requested release, whose files are there, with its marker off, and the next boot of its agent starts it on that release |
| `Agent.ApplyStages` | internal/agent/server.go:247-358 | The stage in an answer: stop exactly for a stop, reload for any other success; a failure was at validation exactly if nothing was swapped, else at the reload of an engine that still ran, or at the start |
| `Agent.ApplyRuns` | internal/agent/server.go:309-357 | A successful apply that is not a stop runs the engine |
| `Agent.QuietApply` | internal/agent/server.go:247-358 | An apply to an engine that is down succeeds, and runs it, if and only if the engine accepts the files, validates them and starts |
| `Agent.ApplySucceeds` | internal/agent/server.go:247-358 | An apply succeeds if and only if it is a stop, or the files are acceptable and either the release already runs, or the engine validates it and then, if it still runs, reloads it, and otherwise comes up with it |
| `Agent.ApplyFails` | internal/agent/server.go:320-351 | After a failed apply the engine runs if and only if it ran and nothing was swapped, it survived the failed reload, or its previous release came up again |
| `Agent.ApplyIsUndoable` | internal/agent/releases.go:177-194 | After a successful apply there is a release to go back to if and only if it changed the release and the history was not empty, or it did not and there was one before; a changed release is followed by the one current before |
| `Agent.RollbackUndoesApply` | internal/agent/server.go:393-439 | A rollback after a successful apply restores the release current before if and only if the apply changed the release and the history was not empty, or it did not change it and there is no older one |
| `Agent.RollbackKeepsFiles` | internal/agent/server.go:393-439 | A release that an apply and its rollback leave in place has its files as before |
| `Agent.RollbackRuns` | internal/agent/server.go:393-439 | Exactly when a rollback succeeds and when the engine runs after it: without a previous release it changes nothing; with one a running engine reloads, survives or restarts, and one that is down, also one that was stopped, is started and may fail to |
| `Agent.StartRuns` | internal/agent/server.go:441-453 | A start of an engine that is down clears its marker and runs it on the release it has, or leaves it down; it succeeds on one that runs and fails on one without a release, and does nothing to either |
| `AgentRuns.RunIsGood` | internal/agent/server.go:143-463 | Over every sequence of applies, rollbacks, starts, stops and boots from an empty root: the store is sound, its history ends in the current release, only a wanted engine runs, and no running or wanted engine has its marker set |
| `AgentRuns.FirstApplyStays` | internal/agent/server.go:150-161 | From an empty root: the first apply to an engine booted on its bootstrap release changes the release, and a rollback answers that there is no previous one and leaves it |
| `AgentRuns.SameReleaseGoesBack` | internal/agent/server.go:279-283 | From an empty root: an apply of the release that already runs succeeds and changes nothing, and a rollback after it goes to an older one |
| `AgentRuns.StoppedComesUp` | internal/agent/server.go:393-439 | From an empty root: an engine the user stopped is given another release to keep stopped; the rollback goes back to its release and runs it |
| `AgentRuns.AppliesCommit` | internal/agent/server.go:247-358 | Applies that each change the release, to a working engine, are the commits the undo stack is about |
| `AgentRuns.DoublingRepeats` | internal/agent/server.go:143-463 | A run from an empty root after which the history is the current release twice |
| `AgentRuns.FailedRestartLosesEntry` | internal/agent/releases.go:157-175 | After that run a failed restart of the current release shortens the history: the condition of FailedApplyHistory is needed |
| `EngineSwitch.ApplySummary` | internal/agent/server.go:247-358 | What the app relies on about an apply call: exactly when it succeeds, which release it leaves, what then runs, and that a failure leaves a quiet engine quiet |
| `EngineSwitch.StartSummary` | internal/agent/server.go:441-453 | A start of an engine that is down succeeds, and runs it, if and only if there is a release that comes up |
| `EngineSwitch.CallIsSafe` | internal/apply/service.go:610-751 | A call to an engine whose ports are free, or that leaves it down, keeps one of any two rival engines down for good, also while it is under way |
| `EngineSwitch.StartNeedsPorts` | internal/apply/service.go:610-751 | In a safe trace an engine is only started while its rival is down for good |
| `EngineSwitch.Service.Call` | internal/apply/service.go:610-733 | One apply call: the agent does what its apply does, the others stay, and every state it goes through is safe |
| `EngineSwitch.Service.CallRollback` | internal/apply/service.go:868-923 | One rollback call, likewise |
| `EngineSwitch.Service.CallStart` | internal/apply/service.go:884-890 | One start call, likewise |
| `EngineSwitch.Service.SwapLB` | internal/apply/service.go:610-687 | The load balancer part: exactly when it fails, and what it has done at each end, for a switch (the old one down on its live release before the new one starts) and for the same engine, which is untouched if it has the release already |
| `EngineSwitch.Service.SwapProxy` | internal/apply/service.go:689-724 | The proxy part, likewise |
| `EngineSwitch.Service.SwapTunnel` | internal/apply/service.go:726-751 | The tunnel part: exactly when it fails; nothing at all is touched if nothing differs |
| `EngineSwitch.Service.Swap` | internal/apply/service.go:610-751 | The three parts in order up to the first failure; a failure is reported if and only if a part fails, and without one all engines serve the version |
| `EngineSwitch.Service.UndoProxy` | internal/apply/service.go:868-891 | Undoing a proxy switch leaves the new engine down for good and the old one on its release, running if and only if it has one that comes up, and reports a problem exactly if it does not run; without a switch a swapped engine is rolled back, and a problem is a failed rollback |
| `EngineSwitch.Service.UndoLB` | internal/apply/service.go:892-916 | Undoing a load balancer switch leaves the new engine down for good and the old one on its live release, running if and only if it ran before and accepts the release; a problem is that it ran before and does not run |
| `EngineSwitch.Service.FailAfterSwap` | internal/apply/service.go:861-923 | Both, and the tunnel, each with its own problem flag |
| `EngineSwitch.PartComesBack` | internal/apply/service.go:868-923 | An engine that stays, after an apply call and the rollback that undoes it: it has its release again if and only if the call failed, or brought another release and the history was not empty, or brought the same one and there is no older one; exactly when it runs, and when undoing reports a problem |
| `EngineSwitch.RunsAsBefore` | internal/apply/service.go:868-923 | Such an engine that ran, and starts whenever it is started, runs again unless it was stopped for good without an older release; one that was stopped and was to stay so runs if and only if there is a release to go back to |
| `EngineSwitch.ProxyComesBack` | internal/apply/service.go:868-891 | Undoing the proxy part after any end of it: after a switch the new engine is down and the old one on its live release, running exactly if it comes up; an engine that stays is as one apply call and its rollback leave it, or untouched if it was not reached |
| `EngineSwitch.LBComesBack` | internal/apply/service.go:892-916 | The same for the load balancers; after a switch the old one runs exactly if the live version says it ran and it accepts its release again, and without a live release it stays stopped |
| `EngineSwitch.AllComesBack` | internal/apply/service.go:861-923 | From every point of failure each part is left exactly so, and the ports of the live engines are free for them again |
| `EngineSwitch.LiveIsBack` | internal/apply/service.go:861-923 | A version that went live, and the next one, which fails: exactly when its releases are current again. A switch always brings them back; an engine that stays has its own again if and only if it was not called, refused the call, was brought another release, or has no older one |
| `EngineSwitch.OldEnginesRun` | internal/apply/service.go:868-916 | After a failed switch an old proxy engine that ran before and comes up again runs, on the live release; an old load balancer whose release is accepted again runs if and only if the live version runs one and the user has not stopped it, which is as before if and only if the live version is right; neither part reports a problem |
| `EngineSwitch.ServingBoots` | internal/apply/service.go:418-805 | Every engine of a served version that is to run is started by the next boot of its agent, on its release of that version |
| `EngineSwitch.TunnelIsAsItShould` | internal/apply/service.go:726-735 | The tunnel is left alone exactly if it runs as it should on its release, or is down without one and is to stay so |
| `EngineSwitch.Service.ApplyVersion` | internal/apply/service.go:418-805 | Over every sequence of applies and in every state in between: of both proxy engines, and of both load balancers, one is down for good, and every history ends in the current release. A version goes live if and only if rendering and validation pass, every part succeeds and the health check passes; then it is served. A failed one leaves the live version live and each part exactly as AllComesBack says, with exact problem flags |

## Left out

- Proxying of HTTP and TCP, TLS, compression, cookies, logs, the stats page and metrics: I/O and string formatting.
- `internal/acme`, `internal/auth`, `internal/backup`, `internal/docker`, `internal/api`: network clients, handlers and storage.
- Rendering, the version database, containers, notifications and audit entries around an apply; the reconcile loop and user starts and stops between applies.
- The text of hunk headers: a header is kept as its four numbers. Splitting files into lines and ordering files (`splitLines`, `pathRank`): the diff takes lines.
- The hash functions of `balance source` and `balance uri`: a hash is a parameter.
- `freqCtr`, the up and down times of a backend, and the wake-up of queued sessions: `BeState` is the change counter alone. The texts and counters logged with a server change are not kept.
- Parsing of runtime commands: `CommandWeight` takes the number, which fits 64 bits, and whether it is relative.
- Clocks are integers that callers pass in. Durations and instants do not overflow here, apart from the samples of the sliding average, whose whole milliseconds fit a 64-bit number of nanoseconds.
- The 64-bit current weights and the products that compare loads are unbounded here. Stored weights fit 32 bits, so they do not overflow below 2^31 servers or sessions.
- Backend.Backend.PickRandom: the two random numbers are parameters, their distribution is not modelled. Its fallbacks for a draw that finds no server are dead on a stable state (Backend.Backend.Draw) and are not modelled.
- Backend.Backend.Pick: on a stable state. What concurrent changes do to the cached map is in `HashCache`; for the other algorithms a concurrent change is not modelled.
- HashCache.CacheIsCoherent: a rebuild torn by a change may store any map, since the source's loop then works on weights that do not add up; the theorem shows it is never taken for current once the change is through.
- StickTable.Table.Get: the list element a map entry points to is found by position; the constant-time links of the list are not modelled.
- IdleConn.KickWins: until the next rearm. `off` and the throttle are one choice of leaving `extend` early.
- ConnPool.GetHandsOutQuiet: a peek may return anything at any time; that a kick makes it return is not modelled, nor is rearm.
- Limiter.LimiterIsSafe: safety, and that a freed slot can be taken (Limiter.CloseAdmits); fairness among the woken loops is not modelled.
- Releases.UndoStack: for keep below the 50 entries of the history (it is 10), and at most keep applies, which is all that pruning promises.
- File operations of the agent succeed, and each is one step; a release's content is a value. The release directory's staging copies are not modelled.
- Agent.EngineAgent.Apply: an engine that stops by itself is seen when an operation looks (`alive`, `aliveAfter`); the supervisor's own restarts cannot fall into an operation, since both hold the same lock.
- EngineSwitch.Service.ApplyVersion: all agents answer, and between the calls of an apply agents change only by these calls. The branches for unreachable agents and the one for a stop that fails (a stop never does, Agent.StopIsQuiet) are not modelled. How rendering, validation and the health check end is given with what the engines do.
- EngineSwitch.Service.UndoLB: whether the old load balancer ran is, as in the source, what the live version and the user's stops say, not what its agent reported.
