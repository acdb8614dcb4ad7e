/** The whole simulator as a value: every set's lines, every set's recency
    list and the miss counter, one access as a function of that value, and a
    trace as the fold of those accesses.  Simulator.Simulate is proved to
    compute exactly Run's miss count. */
module CacheModel {
  import opened AddressTranslation
  import opened Recency
  import opened CacheSets

  /** sets[s] are the lines of set s; orders[s] its recency list (4-way
      caches only, empty otherwise); misses the counter. */
  datatype Cache = Cache(sets: seq<seq<Row>>, orders: seq<seq<int>>, misses: nat)

  /** A cache of `ways` lines per set, as one of the three initializers sizes
      it, with a way order per set when it is 4-way. */
  predicate Shaped(c: Cache, ways: int)
  {
    (ways == 1 || ways == 2 || ways == 4) && |c.sets| >= 1 &&
    (forall s :: 0 <= s < |c.sets| ==> |c.sets[s]| == ways) &&
    (ways == 4 ==> |c.orders| == |c.sets| && forall s :: 0 <= s < |c.orders| ==> IsWayOrder(c.orders[s]))
  }

  /** What every access keeps: tags unique within each set, and the 2-way
      flags consistent. */
  predicate Consistent(c: Cache, ways: int)
    requires Shaped(c, ways)
  {
    forall s :: 0 <= s < |c.sets| ==>
      UniqueTags(c.sets[s]) && (ways == 2 ==> FlagsConsistent(c.sets[s][0], c.sets[s][1]))
  }

  /** Every valid line holds a tag from `seen`. */
  predicate TagsIn(c: Cache, seen: set<int>)
  {
    forall s, w :: 0 <= s < |c.sets| && 0 <= w < |c.sets[s]| && c.sets[s][w].v ==> c.sets[s][w].tag in seen
  }

  /** The state the initializers build: every line a fresh Row, every recency
      list [3, 2, 1, 0]. */
  function EmptyCache(sets: int, ways: int): (c: Cache)
    requires sets >= 0 && (ways == 1 || ways == 2 || ways == 4)
    ensures |c.sets| == sets && c.misses == 0 && TagsIn(c, {})
    ensures sets >= 1 ==> Shaped(c, ways) && Consistent(c, ways)
  {
    InitialOrderIsWayOrder();
    Cache(seq(sets, _ => seq(ways, _ => EmptyRow)),
          if ways == 4 then seq(sets, _ => InitialOrder) else [],
          0)
  }

  /** One access to block b: the set b % (number of sets) is updated by the
      policy of the cache's associativity, and its miss, if any, counted. */
  function Step(c: Cache, ways: int, b: int): (r: Cache)
    requires Shaped(c, ways) && b >= 0
    ensures Shaped(r, ways) && |r.sets| == |c.sets|
  {
    var s := b % |c.sets|;
    var rows := c.sets[s];
    var misses := c.misses + MissCount(rows, b);
    if ways == 1 then
      Cache(c.sets[s := DirectMapRows(rows, b)], c.orders, misses)
    else if ways == 2 then
      Cache(c.sets[s := TwoWayRows(rows, b)], c.orders, misses)
    else
      FourWayRecency(rows, c.orders[s], b);
      Cache(c.sets[s := FourWayRows(rows, c.orders[s], b)],
            c.orders[s := FourWayOrder(rows, c.orders[s], b)],
            misses)
  }

  /** All accesses of a trace of block addresses, first to last. */
  function Run(c: Cache, ways: int, blocks: seq<int>): (r: Cache)
    requires Shaped(c, ways) && forall k :: 0 <= k < |blocks| ==> blocks[k] >= 0
    ensures Shaped(r, ways) && |r.sets| == |c.sets|
    decreases |blocks|
  {
    if blocks == [] then c
    else
      var n := |blocks| - 1;
      Step(Run(c, ways, blocks[..n]), ways, blocks[n])
  }

  /** Running one more block of a trace is one more Step. */
  lemma RunPrefix(c: Cache, ways: int, blocks: seq<int>, i: int)
    requires Shaped(c, ways) && forall k :: 0 <= k < |blocks| ==> blocks[k] >= 0
    requires 0 <= i < |blocks|
    ensures Run(c, ways, blocks[..i + 1]) == Step(Run(c, ways, blocks[..i]), ways, blocks[i])
  {
    assert blocks[..i + 1][..i] == blocks[..i];
  }

  /** The block address of every byte address of a trace. */
  function Blocks(memAddresses: seq<int>, blockSize: int): (r: seq<int>)
    requires blockSize > 0
    ensures |r| == |memAddresses|
    ensures forall k :: 0 <= k < |r| ==> r[k] == BlockAddress(memAddresses[k], blockSize)
  {
    seq(|memAddresses|, k requires 0 <= k < |memAddresses| => BlockAddress(memAddresses[k], blockSize))
  }

  // ---------------------------------------------------------------------
  // One access.

  /** An access changes only the set the block maps to; after it that set
      holds the block; the counter grows by one exactly on a miss; only the
      accessed tag is written; the invariant is kept. */
  lemma StepProperties(c: Cache, ways: int, b: int)
    requires Shaped(c, ways) && b >= 0
    ensures var r := Step(c, ways, b);
      var s := b % |c.sets|;
      IsHit(r.sets[s], b) &&
      (forall t :: 0 <= t < |c.sets| && t != s ==> r.sets[t] == c.sets[t]) &&
      (r.misses == c.misses + 1 <==> !IsHit(c.sets[s], b)) &&
      (r.misses == c.misses <==> IsHit(c.sets[s], b)) &&
      OnlyWrites(c.sets[s], r.sets[s], b) &&
      (Consistent(c, ways) ==> Consistent(r, ways))
  {
    var s := b % |c.sets|;
    var rows := c.sets[s];
    var r := Step(c, ways, b);
    if ways == 1 {
      DirectMapAccess(rows, b);
    } else if ways == 2 {
      TwoWayAccess(rows, b);
    } else {
      FourWayAccess(rows, c.orders[s], b);
    }
    if Consistent(c, ways) {
      forall t | 0 <= t < |r.sets|
        ensures UniqueTags(r.sets[t]) && (ways == 2 ==> FlagsConsistent(r.sets[t][0], r.sets[t][1]))
      {
        if t != s {
          assert r.sets[t] == c.sets[t];
        }
      }
    }
  }

  /** An access adds the block to the tags that can be resident. */
  lemma StepTagsIn(c: Cache, ways: int, b: int, seen: set<int>)
    requires Shaped(c, ways) && b >= 0 && TagsIn(c, seen)
    ensures TagsIn(Step(c, ways, b), seen + {b})
    ensures c.misses <= Step(c, ways, b).misses <= c.misses + 1
    ensures b !in seen ==> Step(c, ways, b).misses == c.misses + 1
  {
    StepProperties(c, ways, b);
    var s := b % |c.sets|;
    var r := Step(c, ways, b);
    forall t, w | 0 <= t < |r.sets| && 0 <= w < |r.sets[t]| && r.sets[t][w].v
      ensures r.sets[t][w].tag in seen + {b}
    {
      if t != s {
        assert r.sets[t] == c.sets[t];
      } else {
        assert r.sets[s][w].tag == b || Holds(c.sets[s][w], r.sets[s][w].tag);
      }
    }
  }

  // ---------------------------------------------------------------------
  // A whole trace.

  /** The distinct blocks of a trace. */
  function Distinct(blocks: seq<int>): (r: set<int>)
    ensures forall k :: 0 <= k < |blocks| ==> blocks[k] in r
    ensures forall x :: x in r ==> x in blocks
  {
    set k | 0 <= k < |blocks| :: blocks[k]
  }

  /** From a cache with no valid line, a trace costs at most one miss per
      access and at least one per distinct block (the compulsory misses); the
      lines only ever hold blocks of the trace. */
  lemma {:induction false} RunMissBounds(c: Cache, ways: int, blocks: seq<int>)
    requires Shaped(c, ways) && forall k :: 0 <= k < |blocks| ==> blocks[k] >= 0
    requires TagsIn(c, {})
    ensures var r := Run(c, ways, blocks);
      TagsIn(r, Distinct(blocks)) &&
      c.misses + |Distinct(blocks)| <= r.misses <= c.misses + |blocks|
  {
    if blocks != [] {
      var n := |blocks| - 1;
      var prefix := blocks[..n];
      RunMissBounds(c, ways, prefix);
      var before := Run(c, ways, prefix);
      StepTagsIn(before, ways, blocks[n], Distinct(prefix));
      DistinctLast(blocks);
    }
  }

  /** The distinct blocks of a trace are those of all but its last block,
      and the last. */
  lemma DistinctLast(blocks: seq<int>)
    requires |blocks| > 0
    ensures Distinct(blocks) == Distinct(blocks[..|blocks| - 1]) + {blocks[|blocks| - 1]}
  {
    var n := |blocks| - 1;
    var prefix := blocks[..n];
    forall x | x in Distinct(blocks) ensures x in Distinct(prefix) + {blocks[n]} {
      var k :| 0 <= k < |blocks| && blocks[k] == x;
      if k < n {
        assert prefix[k] == x;
      }
    }
  }

  /** Every access keeps the invariant, so a whole trace does. */
  lemma {:induction false} RunConsistent(c: Cache, ways: int, blocks: seq<int>)
    requires Shaped(c, ways) && forall k :: 0 <= k < |blocks| ==> blocks[k] >= 0
    requires Consistent(c, ways)
    ensures Consistent(Run(c, ways, blocks), ways)
  {
    if blocks != [] {
      var n := |blocks| - 1;
      RunConsistent(c, ways, blocks[..n]);
      StepProperties(Run(c, ways, blocks[..n]), ways, blocks[n]);
    }
  }

  /** A direct-mapped set that is accessed by blocks of which no two
      consecutive ones are equal misses on every access, provided its line
      does not already hold the first block. */
  lemma {:induction false} DirectMapAlternatingMisses(c: Cache, blocks: seq<int>, s: int)
    requires Shaped(c, 1) && 0 <= s < |c.sets|
    requires forall k :: 0 <= k < |blocks| ==> blocks[k] >= 0 && blocks[k] % |c.sets| == s
    requires forall k :: 0 < k < |blocks| ==> blocks[k] != blocks[k - 1]
    requires |blocks| > 0 ==> !Holds(c.sets[s][0], blocks[0])
    ensures Run(c, 1, blocks).misses == c.misses + |blocks|
    ensures |blocks| > 0 ==> Holds(Run(c, 1, blocks).sets[s][0], blocks[|blocks| - 1])
  {
    if blocks != [] {
      var n := |blocks| - 1;
      var prefix := blocks[..n];
      DirectMapAlternatingMisses(c, prefix, s);
      var before := Run(c, 1, prefix);
      DirectMapAccess(before.sets[s], blocks[n]);
      assert n > 0 ==> prefix[n - 1] == blocks[n - 1];
      var r := Step(before, 1, blocks[n]);
      assert r.sets[s] == DirectMapRows(before.sets[s], blocks[n]);
    }
  }
}
