# Cache simulator, modelled and verified in Dafny

The system reads a trace of byte addresses and replays it against a
simulated hardware cache. The configuration is a number of cache sets, a
set associativity (1, 2 or 4) and a block size in words. The system reports
the total number of misses.

Each address is turned into a block address: the byte address is divided by
the 4-byte word size and then by the block size, both times with floor
division. The set index is the block address modulo the number of sets,
which is `numCacheSets / ways`. The tag stored in a line is the whole block
address. The three placement policies are:

- **Direct-mapped.** One line per set, overwritten on a miss.
- **2-way.** Two lines per set, each with a one-bit "last used" flag. A miss
  fills way 0 if it is invalid, else way 1 if it is invalid, else the way
  whose flag is clear.
- **4-way.** Four lines per set and a doubly linked list per set that orders
  the ways by recency. Every access (hit, fill or eviction) moves the
  touched way to the head of the list (`delete` then `add`). With all four
  lines valid, a miss evicts the way at the tail, the least recently used
  one.

The project has six modules:

| module | file | contents |
|---|---|---|
| `AddressTranslation` | `translation.dfy` | byte address to block address, with floor semantics; block address to set index |
| `Recency` | `recency.dfy` | the linked list, as the sequence of its nodes' data from head to tail; a class `LinkedList` whose `Add`, `Delete` and `GetTail` follow the source's loops; the move-to-front permutation invariant |
| `CacheSets` | `cache_sets.dfy` | one set as a sequence of `Row` values, and pure functions for what one access does to it under each policy; these are the specification of the imperative code |
| `CacheModel` | `cache_model.dfy` | the whole simulator as a value `Cache(sets, orders, misses)`; `Step` is one access and `Run` is a trace; lemmas about both |
| `Simulator` | `simulator.dfy` | the class `CacheSimulator` with the source's fields: an `array2<Row>`, an array of `LinkedList` objects and the miss counter; every access method is proved to move the object's abstract `State()` by exactly one `Step`, and the trace loop by one `Run` |
| `Scenarios` | `scenarios.dfy` | worked traces proved on the model |

In the source, deleting a value that is absent from a list sets its head to
null, which empties the list. The model keeps this behaviour
(`Recency.LinkedList.Delete`). The simulator never triggers it:
`MoveToFrontKeepsWayOrder` shows every list always holds all four ways.

Take the byte addresses 0, 1, 2, 3, 4, 0 with 32 sets, 4 ways and block
size 1. The 4-way cache then has 32 / 4 = 8 sets, block 0 maps to set 0
and block 1 maps to set 1. `Scenarios.EndToEndTrace` proves that the miss
count is 2 for every cache of two or more sets and every associativity.

## Model

| member | source | states |
|---|---|---|
| AddressTranslation.FloorDiv | CacheSimulator.java:302 | the quotient q satisfies q*b <= a < q*b + b: it is rounded toward negative infinity, as Math.floorDiv does |
| AddressTranslation.FloorDivUnique | CacheSimulator.java:302 | any q with q*b <= a < q*b + b is the floor quotient, so FloorDiv is exactly floor division |
| AddressTranslation.BlockAddress | CacheSimulator.java:302 | a non-negative byte address has a non-negative block address |
| AddressTranslation.BlockAddressBounds | CacheSimulator.java:302 | the block address b is the number of the block of 4*blockSize bytes that holds the address: b*(4*blockSize) <= address < (b+1)*(4*blockSize) |
| AddressTranslation.BlockAddressIsOneDivision | CacheSimulator.java:302 | the two nested floor divisions by 4 and by blockSize equal one floor division by 4*blockSize |
| AddressTranslation.NegativeAddressFloors | CacheSimulator.java:302 | negative addresses floor instead of truncating: byte -1 is in block -1 for block sizes 1 and 4, and byte -17 is in block -3 for block size 2 |
| AddressTranslation.SetIndex | CacheSimulator.java:197 | for a non-negative block address the set index lies in [0, numCacheSets / ways), and a block below the set count indexes its own set (also lines 137 and 153) |
| AddressTranslation.SetIndexPeriodic | CacheSimulator.java:137 | blocks a whole multiple of the set count apart map to the same set |
| Recency.MoveToFront | CacheSimulator.java:202-203 | delete(w) then add(w) puts w at the head; when w was in the list the result has the same length (`MoveToFrontKeepsWayOrder` proves that a way order stays a way order); when it was absent only w is left; the list that is the single node w is excluded, as in `LinkedList.Delete` |
| Recency.Remove | CacheSimulator.java:62-80 | unlinking a value that is absent leaves the list unchanged, and the list never grows |
| Recency.RemoveOne | CacheSimulator.java:62-78 | unlinking a present value shortens the list by one and removes exactly one copy of it from the multiset of values |
| Recency.RemoveFirst | CacheSimulator.java:62-78 | when the first occurrence is at index i, the result is the list before i followed by the list after i |
| Recency.RemoveKeepsOthers | CacheSimulator.java:62-78 | every other value stays in the list |
| Recency.RemoveKeepsOthersInOrder | CacheSimulator.java:62-78 | all the other values keep their relative order |
| Recency.InitialOrderIsWayOrder | CacheSimulator.java:124-131 | adding 0, 1, 2, 3 to an empty list gives a list that holds every way, with way 0 at the tail |
| Recency.WayOrderElements | CacheSimulator.java:124-131 | in a way order every entry is a way index 0..3, every way index occurs, and no two entries are equal |
| Recency.WayOrderIsPermutation | CacheSimulator.java:124-131 | a way order is a permutation of {0, 1, 2, 3}, as a multiset |
| Recency.MoveToFrontKeepsWayOrder | CacheSimulator.java:202-203 | delete(w) then add(w) keeps the list a permutation of the four ways, puts w at the head, and keeps the other three in their relative order |
| Recency.LinkedList.constructor | CacheSimulator.java:37-40 | a new list is empty |
| Recency.LinkedList.Add | CacheSimulator.java:43-52 | the new node becomes the head: the new list is [num] followed by the old list |
| Recency.LinkedList.Delete | CacheSimulator.java:55-83 | reports whether num was present; if it was, its first node is unlinked, and if not, the whole list is emptied (the head is set to null) |
| Recency.LinkedList.GetTail | CacheSimulator.java:86-93 | returns the data of the last node |
| CacheSets.Row | CacheSimulator.java:15-19 | a line: the tag, the 2-way "last used" flag and the valid bit; a fresh line has tag 0 and both flags clear (`EmptyRow`) |
| CacheSets.DirectMapRows | CacheSimulator.java:135-148 | after an access the single line of the set holds the block and is valid; its last-used flag is kept |
| CacheSets.TwoWayWay | CacheSimulator.java:151-192 | the touched way is 0 or 1, and on a hit it is a way that holds the block |
| CacheSets.TwoWayRows | CacheSimulator.java:151-192 | after an access the touched way holds the block and is the only way with its last-used flag set |
| CacheSets.FourWayWay | CacheSimulator.java:195-264 | the touched way is 0..3; on a hit it holds the block; on a miss with every line valid it is the way at the tail of the recency list |
| CacheSets.FourWayRows | CacheSimulator.java:195-264 | after an access the touched way holds the block and the other three lines are unchanged |
| CacheSets.FourWayOrder | CacheSimulator.java:195-264 | after an access the recency list still holds each of the four ways once, with the touched way at its head |
| CacheSets.FirstHit | CacheSimulator.java:201-212 | the way returned is the first one at or after `from` that is valid and holds the tag; every way before it does not |
| CacheSets.FirstInvalid | CacheSimulator.java:215-238 | the way returned is the first invalid one at or after `from`; every way before it is valid |
| CacheSets.FirstHitFindsHit | CacheSimulator.java:201-212 | the hit scan finds a way if and only if the access is a hit |
| CacheSets.FirstInvalidFindsInvalid | CacheSimulator.java:215-238 | the fill scan finds a way if and only if some line of the set is invalid |
| CacheSets.DirectMapAccess | CacheSimulator.java:135-148 | an access hits exactly when the line is valid and holds the tag; a hit changes nothing; a miss writes the tag, sets the valid bit and keeps the flag; afterwards the block is resident, tags are unique and no other tag was written |
| CacheSets.TwoWayChoice | CacheSimulator.java:157-189 | which way is touched: a hit checks way 0 before way 1; a miss fills way 0 if it is invalid, else way 1 if it is invalid, else evicts the way whose flag is clear; with consistent flags, that is the way not used last |
| CacheSets.TwoWayAccess | CacheSimulator.java:151-192 | exactly one flag is set after the access, on the way that now holds the block; the other way keeps its tag and valid bit; a hit changes no tag and no valid bit; valid bits stay set; the flags stay consistent; tags stay unique; no other tag was written |
| CacheSets.FourWayChoice | CacheSimulator.java:201-262 | which way is touched: on a hit the first way 0..3 holding the tag; on a miss, the first invalid way; with all four valid, the way at the tail of the recency list |
| CacheSets.FourWayAccess | CacheSimulator.java:201-263 | the touched way holds the block; the other three lines and every flag are untouched; a hit changes no line; valid bits stay set; tags stay unique; no other tag was written |
| CacheSets.FourWayRecency | CacheSimulator.java:201-261 | after an access the set's recency list is still a permutation of the four ways, has the touched way at its head, and keeps the other three in their relative order |
| CacheSets.MissCount | CacheSimulator.java:146 | the counter grows by 1 exactly when no valid line holds the tag, and by 0 otherwise |
| CacheModel.EmptyCache | CacheSimulator.java:97-131 | the initial state has no valid line and no misses; it is well shaped and satisfies the invariant |
| CacheModel.Step | CacheSimulator.java:135-264 | one access keeps the shape: the number of sets, the lines per set and a way order per 4-way set |
| CacheModel.Run | CacheSimulator.java:298-323 | a whole trace keeps the shape |
| CacheModel.RunPrefix | CacheSimulator.java:300-305 | running one more address of the trace is one more Step |
| CacheModel.Blocks | CacheSimulator.java:301-302 | each entry of the trace is turned into its block address |
| CacheModel.Distinct | CacheSimulator.java:298-323 | the distinct blocks of a trace are exactly the blocks that occur in it |
| CacheModel.StepProperties | CacheSimulator.java:135-264 | for any associativity: after an access the accessed set holds the block; every other set is unchanged; the counter grows by 1 if and only if the access is a miss, and is unchanged if and only if it is a hit; no tag but the accessed one is written; the invariant is kept |
| CacheModel.StepTagsIn | CacheSimulator.java:135-264 | the counter never decreases and grows by at most 1; an access to a block that is not resident is always a miss; afterwards the resident tags come from the blocks seen so far plus this one |
| CacheModel.RunMissBounds | CacheSimulator.java:298-323 | from a cache with no valid line, a trace costs at least one miss per distinct block and at most one per access; the lines only ever hold blocks of the trace |
| CacheModel.RunConsistent | CacheSimulator.java:298-323 | every trace keeps tags unique in every set and keeps the 2-way flags consistent |
| CacheModel.DirectMapAlternatingMisses | CacheSimulator.java:135-148 | in a direct-mapped set, blocks that map to one set with no two consecutive ones equal miss on every access, provided the line does not already hold the first block; afterwards the line holds the last block |
| Simulator.NewEmptyRows | CacheSimulator.java:98-101 | a fresh array of the given dimensions with every line a new Row: tag 0, both flags false |
| Simulator.NewRecencyLists | CacheSimulator.java:124-131 | a fresh array of distinct lists, each holding [3, 2, 1, 0] |
| Simulator.EmptySets | CacheSimulator.java:97-121 | an array of fresh Rows is the set contents of the model's empty cache |
| Simulator.Ways | CacheSimulator.java:298-324 | associativity 1 and 2 select themselves; every other value falls through to the 4-way cache |
| Simulator.Simulate | CacheSimulator.java:266-338 | `main` without its I/O: the miss count printed is the one Run computes for the trace's block addresses from the empty cache; it is at least the number of distinct blocks and at most the number of addresses |
| Simulator.CacheSimulator.ValidIsConsistent | CacheSimulator.java:10-19 | the object invariant holds exactly when the model's invariant holds for the state the object represents |
| Simulator.CacheSimulator.constructor | CacheSimulator.java:10 | a new simulator has no misses and no cache yet |
| Simulator.CacheSimulator.InitializeDirectMapCache | CacheSimulator.java:97-102 | the cache becomes numCacheSets sets of one fresh line, which is the model's empty cache |
| Simulator.CacheSimulator.InitializeTwoWayCache | CacheSimulator.java:105-111 | the cache becomes numCacheSets / 2 sets of two fresh lines |
| Simulator.CacheSimulator.InitializeFourWayCache | CacheSimulator.java:114-132 | the cache becomes numCacheSets / 4 sets of four fresh lines, with one recency list per set holding [3, 2, 1, 0] |
| Simulator.CacheSimulator.DirectMap | CacheSimulator.java:135-148 | the new state (lines and counter) is one direct-mapped Step from the old one; the invariant is kept |
| Simulator.CacheSimulator.TwoWay | CacheSimulator.java:151-192 | the new state is one 2-way Step from the old one; the invariant is kept |
| Simulator.CacheSimulator.TwoWaySet | CacheSimulator.java:157-191 | the five branches of the source turn the set into TwoWayRows of it and count MissCount misses; every other set is unchanged |
| Simulator.CacheSimulator.FourWayLookup | CacheSimulator.java:201-262 | the source's chain of hit tests, valid-bit tests and getTail comparisons picks the way FourWayWay names, and reports whether the access is a hit |
| Simulator.CacheSimulator.FourWayFill | CacheSimulator.java:213-262 | the lines of the set become FourWayRows of them and the counter grows by MissCount; no other set changes |
| Simulator.CacheSimulator.TouchLru | CacheSimulator.java:202-203 | delete(way) then add(way) moves the way to the head of that set's list; every other list is unchanged; each list still holds every way |
| Simulator.CacheSimulator.FourWay | CacheSimulator.java:195-264 | the new state, including the recency lists, is one 4-way Step from the old one; the invariant is kept |
| Simulator.CacheSimulator.Access | CacheSimulator.java:298-324 | each access, whatever the associativity, is one Step of the model |
| Simulator.CacheSimulator.Replay | CacheSimulator.java:300-323 | the trace loop takes the simulator from its state to Run of that state over the trace's block addresses; the invariant is kept |
| Simulator.CacheSimulator.AccessNext | CacheSimulator.java:301-304 | one loop iteration takes the state from the run of the first i addresses to the run of the first i + 1 |
| Scenarios.TwoWayAlternation | CacheSimulator.java:135-192 | in a 2-way set the trace A, B, A, B, A costs two misses; in a direct-mapped cache of one set it costs five |
| Scenarios.FourWayLruEviction | CacheSimulator.java:195-264 | in one 4-way set the trace A, B, C, D, A, E misses on A to D, which fill ways 0 to 3, hits on the second A, and E evicts B's way, the least recently used one: afterwards the ways hold A, E, C and D, B is not resident, the recency list is [1, 0, 3, 2] and the count is 5 |
| Scenarios.EndToEndTrace | CacheSimulator.java:298-323 | byte addresses 0, 1, 2, 3, 4, 0 with 1-word blocks cost exactly two misses, for every associativity and every cache of two or more sets |
| Scenarios.RunMiss | CacheSimulator.java:135-264 | an access to a block that is not resident counts a miss, leaves the block resident and changes no other set |
| Scenarios.RunHit | CacheSimulator.java:135-264 | an access to a resident block counts nothing and leaves the block resident |

## Left out

- The console prompts, reading the trace file, and the "Total misses" and
  hit-rate output of `main` are I/O. `Simulator.Simulate` takes the trace
  as a sequence of integers and returns the miss count.
- The hit rate `100 - misses / 10000.0` is floating point, and so is not
  modelled.
- `main` catches an unreadable trace file (`IOException`,
  CacheSimulator.java:331) and a non-integer configuration value read from
  the keyboard (`InputMismatchException`, line 335). A non-integer trace
  line makes `Integer.parseInt` throw `NumberFormatException`, which `main`
  does not catch, so the program ends without printing a miss count. None
  of these is modelled: `Simulator.Simulate` takes the trace as integers.
- Java's 32-bit `int` is not modelled. Addresses and the counter are
  unbounded integers, so a trace of more than 2^31 - 1 misses or
  addresses beyond the `int` range are outside the model.
- Simulator.Simulate: requires non-negative byte addresses.
  - The model excludes every negative address, although Java fails on
    only some of them. A negative block that is not a multiple of the set
    count gets a negative remainder from Java's `%`, and the array access
    with that set index throws. A negative block that is a multiple of the
    set count, such as byte -32 with 8 sets, or any address with one set,
    gets set 0 and is simulated.
  - The model's floor division for negative addresses is kept in
    `AddressTranslation.BlockAddress`.
- Simulator.Simulate: requires `blockSize >= 1`.
  - `Math.floorDiv` at CacheSimulator.java:302 throws ArithmeticException
    for block size 0. With a negative block size, bytes 0..3 are word 0,
    which falls in block 0, and Java simulates them; bytes 4 and above get
    a negative block address, the case of the line above. The model
    excludes every negative block size.
- Simulator.Simulate: requires `numCacheSets / ways >= 1`.
  - For `-ways < numCacheSets < ways`, Java's truncating `/` makes
    numCacheSets / ways zero. The arrays are then allocated empty, and the
    `%` of the set index divides by zero at the first access. For
    `numCacheSets <= -ways` the array allocation throws.
  - The model excludes all of these, and with them the empty trace on a
    cache with fewer sets than ways, which Java accepts and reports as 0
    misses.
- Recency.LinkedList.Delete: requires that the list is not the single node
  `num`.
  - The source then dereferences a null head.
  - The simulator's lists always have four nodes.
- Recency.MoveToFront: requires that the list is not the single node `w`,
  for the same reason as `LinkedList.Delete`.
- Recency.LinkedList.GetTail: requires at least two nodes.
  - With fewer, the source returns data through a stale or null `tail`
    pointer.
  - The simulator's lists always have four nodes.
- The `prev`/`next` pointers and the `tail` field of the linked list are not
  modelled one by one. A list is the sequence of its data from head to
  tail, which is all that `add`, `delete` and `getTail` observe. The first
  loop of `delete` and the `tail` updates of `getTail` only move the
  `tail` pointer.
- The Row objects are `Row` values in a two-dimensional array. In the
  source every Row is allocated separately and never shared, so updating a
  field in place and storing an updated value cannot be told apart.
- Simulator.CacheSimulator.FourWay: splits the source's single chain of
  branches into a lookup (`FourWayLookup`), a fill of the chosen line
  (`FourWayFill`) and the recency-list update (`TouchLru`).
  - In the source, each hit branch does the list update for one way, and
    each miss branch does the fill and the list update for one way.
  - `FourWayLookup` keeps the source's repeated `getTail()` calls.
- Simulator.CacheSimulator.Replay: is one loop over the trace calling
  `Access`, which dispatches on the associativity. The source writes three
  copies of the loop, one per associativity, and `Ways` chooses the same
  branch.
