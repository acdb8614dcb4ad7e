/** The simulator object: the cache array, a recency list per set for the
    4-way cache, the miss counter, and the three access operations that
    update them in place. */
module Simulator {
  import opened AddressTranslation
  import opened Recency
  import opened CacheSets
  import opened CacheModel

  /** A fresh cache array of `sets` sets of `ways` lines, every line a new
      Row: tag 0, both flags false. */
  method NewEmptyRows(sets: int, ways: int) returns (rows: array2<Row>)
    requires sets >= 0 && ways >= 0
    ensures fresh(rows) && rows.Length0 == sets && rows.Length1 == ways
    ensures forall s, w :: 0 <= s < sets && 0 <= w < ways ==> rows[s, w] == EmptyRow
  {
    rows := new Row[sets, ways];
    for i := 0 to sets
      invariant forall s, w :: 0 <= s < i && 0 <= w < ways ==> rows[s, w] == EmptyRow
    {
      for j := 0 to ways
        invariant forall s, w :: 0 <= s < i && 0 <= w < ways ==> rows[s, w] == EmptyRow
        invariant forall w :: 0 <= w < j ==> rows[i, w] == EmptyRow
      {
        rows[i, j] := EmptyRow;
      }
    }
  }

  /** `sets` fresh, distinct recency lists, each built by adding 0, 1, 2 and 3
      to an empty list, and the set of them. */
  method NewRecencyLists(sets: int) returns (hierarchy: array<LinkedList?>, ghost made: set<LinkedList>)
    requires sets >= 0
    ensures fresh(hierarchy) && fresh(made) && hierarchy.Length == sets
    ensures forall s :: 0 <= s < sets ==>
      hierarchy[s] != null && hierarchy[s] in made && hierarchy[s].order == InitialOrder
    ensures forall s, t :: 0 <= s < t < sets ==> hierarchy[s] != hierarchy[t]
  {
    hierarchy := new LinkedList?[sets];
    made := {};
    for i := 0 to sets
      invariant fresh(made)
      invariant forall s :: 0 <= s < i ==>
        hierarchy[s] != null && hierarchy[s] in made && hierarchy[s].order == InitialOrder
      invariant forall s, t :: 0 <= s < t < i ==> hierarchy[s] != hierarchy[t]
    {
      var list := new LinkedList();
      list.Add(0);
      list.Add(1);
      list.Add(2);
      list.Add(3);
      hierarchy[i] := list;
      made := made + {list};
    }
  }

  /** Every line of a cache array, set by set. */
  ghost function SetsOf(a: array2<Row>): (r: seq<seq<Row>>)
    reads a
    ensures |r| == a.Length0
    ensures forall s :: 0 <= s < a.Length0 ==> |r[s]| == a.Length1
    ensures forall s, w :: 0 <= s < a.Length0 && 0 <= w < a.Length1 ==> r[s][w] == a[s, w]
  {
    seq(a.Length0, s requires 0 <= s < a.Length0 reads a =>
      seq(a.Length1, w requires 0 <= w < a.Length1 reads a => a[s, w]))
  }

  /** An array of fresh Rows is the sets of the empty cache. */
  lemma EmptySets(a: array2<Row>, ways: int)
    requires ways == 1 || ways == 2 || ways == 4
    requires a.Length1 == ways
    requires forall s, w :: 0 <= s < a.Length0 && 0 <= w < ways ==> a[s, w] == EmptyRow
    ensures SetsOf(a) == EmptyCache(a.Length0, ways).sets
  {
    var e := EmptyCache(a.Length0, ways).sets;
    forall s | 0 <= s < a.Length0 ensures SetsOf(a)[s] == e[s] {
      assert |e[s]| == ways;
      assert forall w :: 0 <= w < ways ==> e[s][w] == EmptyRow;
    }
  }

  /** The number of ways the source simulates for a set associativity: 1 and
      2 as given, every other value falls through to the 4-way cache. */
  function Ways(setAssociativity: int): (k: int)
    ensures k == 1 || k == 2 || k == 4
    ensures setAssociativity == 1 || setAssociativity == 2 ==> k == setAssociativity
    ensures setAssociativity != 1 && setAssociativity != 2 ==> k == 4
  {
    if setAssociativity == 1 then 1 else if setAssociativity == 2 then 2 else 4
  }

  /** The trace loop of the source's main, without its console and file I/O:
      a fresh simulator, the cache its associativity selects, then one access
      per byte address of the trace.  The miss count is the one Run computes
      for the trace's block addresses from the empty cache, so it never
      exceeds the number of accesses and it is at least the number of
      distinct blocks. */
  method Simulate(memAddresses: seq<int>, numCacheSets: int, setAssociativity: int, blockSize: int)
      returns (misses: nat)
    requires blockSize >= 1 && numCacheSets / Ways(setAssociativity) >= 1
    requires forall k :: 0 <= k < |memAddresses| ==> memAddresses[k] >= 0
    ensures var ways := Ways(setAssociativity);
      misses == Run(EmptyCache(numCacheSets / ways, ways), ways, Blocks(memAddresses, blockSize)).misses
    ensures |Distinct(Blocks(memAddresses, blockSize))| <= misses <= |memAddresses|
  {
    ghost var ways := Ways(setAssociativity);
    ghost var blocks := Blocks(memAddresses, blockSize);
    ghost var empty := EmptyCache(numCacheSets / ways, ways);
    var cs := new CacheSimulator();
    if setAssociativity == 1 {
      cs.InitializeDirectMapCache(numCacheSets);
    } else if setAssociativity == 2 {
      cs.InitializeTwoWayCache(numCacheSets);
    } else {
      cs.InitializeFourWayCache(numCacheSets);
    }
    cs.Replay(memAddresses, blockSize, setAssociativity, numCacheSets);
    misses := cs.totalMisses;
    RunMissBounds(empty, ways, blocks);
  }

  class CacheSimulator {
    var totalMisses: nat
    /** cache[s, w] is line (way) w of set s. */
    var cache: array2?<Row>
    /** The recency list of each set of the 4-way cache. */
    var lruHierarchy: array?<LinkedList?>
    /** The recency-list objects, so that frames can name them. */
    ghost var lists: set<LinkedList>

    /** The lines of set s, way 0 first. */
    ghost function Rows(s: int): (r: seq<Row>)
      reads this`cache, cache
      requires cache != null && 0 <= s < cache.Length0
      ensures |r| == cache.Length1
      ensures forall w :: 0 <= w < |r| ==> r[w] == cache[s, w]
    {
      SetsOf(cache)[s]
    }

    /** The recency lists of a 4-way cache of n sets: one distinct list per
        set, each holding every way index once. */
    ghost predicate LruValid(n: int)
      reads this`lruHierarchy, this`lists, lruHierarchy, lists
    {
      lruHierarchy != null && lruHierarchy.Length == n &&
      (forall i :: 0 <= i < n ==>
        lruHierarchy[i] != null && lruHierarchy[i] in lists && IsWayOrder(lruHierarchy[i].order)) &&
      (forall i, j :: 0 <= i < j < n ==> lruHierarchy[i] != lruHierarchy[j])
    }

    /** The invariant kept by every access: a 4-way cache has its recency
        lists, no set holds a tag in two valid lines, and the 2-way flags of
        every set are consistent. */
    ghost predicate Valid()
      reads this`cache, this`lruHierarchy, this`lists, cache, lruHierarchy, lists
    {
      cache != null ==>
        (cache.Length1 == 4 ==> LruValid(cache.Length0)) &&
        forall s :: 0 <= s < cache.Length0 ==>
          UniqueTags(Rows(s)) && (cache.Length1 == 2 ==> FlagsConsistent(cache[s, 0], cache[s, 1]))
    }

    /** The recency list of every set, as sequences of way indices. */
    ghost function Orders(): (r: seq<seq<int>>)
      reads this`lruHierarchy, this`lists, lruHierarchy, lists
      requires lruHierarchy != null && LruValid(lruHierarchy.Length)
      ensures |r| == lruHierarchy.Length
      ensures forall i :: 0 <= i < |r| ==> r[i] == lruHierarchy[i].order
    {
      var h := lruHierarchy;
      var l := lists;
      seq(h.Length, i requires 0 <= i < h.Length && h[i] in l reads h, l => h[i].order)
    }

    /** The simulator as a CacheModel value. */
    ghost function State(): Cache
      reads this`totalMisses, this`cache, this`lruHierarchy, this`lists, cache, lruHierarchy, lists
      requires cache != null && (cache.Length1 == 4 ==> LruValid(cache.Length0))
    {
      Cache(SetsOf(cache), if cache.Length1 == 4 then Orders() else [], totalMisses)
    }

    /** A cache of 1, 2 or 4 ways with at least one set, and its recency
        lists when it has 4 ways, is a well-shaped CacheModel value. */
    lemma StateShaped()
      requires cache != null && (cache.Length1 == 1 || cache.Length1 == 2 || cache.Length1 == 4)
      requires cache.Length0 >= 1 && (cache.Length1 == 4 ==> LruValid(cache.Length0))
      ensures Shaped(State(), cache.Length1)
    {
    }

    /** The object invariant is the model's invariant of the state it
        represents. */
    lemma ValidIsConsistent()
      requires cache != null && (cache.Length1 == 4 ==> LruValid(cache.Length0))
      requires Shaped(State(), cache.Length1)
      ensures Valid() <==> Consistent(State(), cache.Length1)
    {
      var c := State();
      if Valid() {
        forall s | 0 <= s < |c.sets|
          ensures UniqueTags(c.sets[s]) && (cache.Length1 == 2 ==> FlagsConsistent(c.sets[s][0], c.sets[s][1]))
        {
          assert c.sets[s] == Rows(s);
        }
      }
      if Consistent(c, cache.Length1) {
        forall s | 0 <= s < cache.Length0
          ensures UniqueTags(Rows(s)) && (cache.Length1 == 2 ==> FlagsConsistent(cache[s, 0], cache[s, 1]))
        {
          assert c.sets[s] == Rows(s);
        }
      }
    }

    /** A state reached by one Step from a consistent state satisfies the
        object invariant. */
    lemma ValidAfterStep(before: Cache, ways: int, b: int)
      requires cache != null && cache.Length1 == ways && (ways == 4 ==> LruValid(cache.Length0))
      requires Shaped(before, ways) && b >= 0 && Consistent(before, ways)
      requires State() == Step(before, ways, b)
      ensures Valid()
    {
      StepProperties(before, ways, b);
      ValidIsConsistent();
    }

    constructor ()
      ensures Valid()
      ensures totalMisses == 0 && cache == null && lruHierarchy == null && lists == {}
    {
      totalMisses := 0;
      cache := null;
      lruHierarchy := null;
      lists := {};
    }

    /** A direct-mapped cache: numCacheSets sets of one line, all invalid. */
    method InitializeDirectMapCache(numCacheSets: int)
      requires numCacheSets >= 0
      modifies this`cache
      ensures Valid() && fresh(cache)
      ensures cache.Length0 == numCacheSets && cache.Length1 == 1
      ensures State() == EmptyCache(numCacheSets, 1).(misses := totalMisses)
    {
      cache := NewEmptyRows(numCacheSets, 1);
      EmptySets(cache, 1);
    }

    /** A 2-way cache: numCacheSets / 2 sets of two lines, all invalid. */
    method InitializeTwoWayCache(numCacheSets: int)
      requires numCacheSets >= 0
      modifies this`cache
      ensures Valid() && fresh(cache)
      ensures cache.Length0 == numCacheSets / 2 && cache.Length1 == 2
      ensures State() == EmptyCache(numCacheSets / 2, 2).(misses := totalMisses)
    {
      cache := NewEmptyRows(numCacheSets / 2, 2);
      EmptySets(cache, 2);
    }

    /** A 4-way cache: numCacheSets / 4 sets of four lines, all invalid, and a
        recency list per set built by adding 0, 1, 2, 3 to an empty list. */
    method InitializeFourWayCache(numCacheSets: int)
      requires numCacheSets >= 0
      modifies this`cache, this`lruHierarchy, this`lists
      ensures Valid() && fresh(cache) && fresh(lruHierarchy) && fresh(lists)
      ensures cache.Length0 == numCacheSets / 4 && cache.Length1 == 4
      ensures State() == EmptyCache(numCacheSets / 4, 4).(misses := totalMisses)
    {
      cache := NewEmptyRows(numCacheSets / 4, 4);
      InitialOrderIsWayOrder();
      lruHierarchy, lists := NewRecencyLists(numCacheSets / 4);
      EmptySets(cache, 4);
      assert Orders() == EmptyCache(numCacheSets / 4, 4).orders;
    }

    /** One direct-mapped access to block `blockAddress`: a hit when the line
        of its set is valid and holds the block, otherwise that line is
        overwritten and a miss counted.  The new state is the one Step
        computes. */
    method DirectMap(blockAddress: int, numCacheSets: int)
      requires Valid()
      requires cache != null && cache.Length1 == 1 && cache.Length0 == numCacheSets
      requires blockAddress >= 0 && numCacheSets >= 1
      modifies this`totalMisses, cache
      ensures Valid()
      ensures Shaped(old(State()), 1) && State() == Step(old(State()), 1, blockAddress)
    {
      var setIndex := SetIndex(blockAddress, numCacheSets, 1);
      var tagValue := blockAddress;
      StateShaped();
      ghost var before := State();
      ghost var after := Step(before, 1, blockAddress);
      ValidIsConsistent();
      StepProperties(before, 1, blockAddress);

      if cache[setIndex, 0].v == true && tagValue == cache[setIndex, 0].tag {
        // a hit
      } else {
        cache[setIndex, 0] := cache[setIndex, 0].(tag := tagValue);
        cache[setIndex, 0] := cache[setIndex, 0].(v := true);
        totalMisses := totalMisses + 1;
      }
      assert Rows(setIndex) == after.sets[setIndex];
      SameSets(before, after, setIndex);
      ValidIsConsistent();
    }

    /** The sets of the new state are those of `after`, given that set s
        already agrees and no other line changed. */
    lemma SameSets(before: Cache, after: Cache, s: int)
      requires cache != null && 0 <= s < cache.Length0
      requires |before.sets| == |after.sets| == cache.Length0
      requires forall t :: 0 <= t < |before.sets| && t != s ==> after.sets[t] == before.sets[t]
      requires forall t :: 0 <= t < cache.Length0 ==> |before.sets[t]| == cache.Length1
      requires forall t, w :: 0 <= t < cache.Length0 && t != s && 0 <= w < cache.Length1 ==> before.sets[t][w] == cache[t, w]
      requires Rows(s) == after.sets[s]
      ensures SetsOf(cache) == after.sets
    {
      forall t | 0 <= t < cache.Length0 ensures SetsOf(cache)[t] == after.sets[t] {
        if t != s {
          assert SetsOf(cache)[t] == before.sets[t];
        }
      }
    }

    /** One 2-way access: a hit in way 0 or way 1 sets that way's flag and
        clears the other's; a miss fills way 0 if invalid, else way 1 if
        invalid, else the way whose flag is clear, and counts a miss. */
    method TwoWay(blockAddress: int, numCacheSets: int)
      requires Valid()
      requires cache != null && cache.Length1 == 2 && cache.Length0 == numCacheSets / 2
      requires blockAddress >= 0 && numCacheSets / 2 >= 1
      modifies this`totalMisses, cache
      ensures Valid()
      ensures Shaped(old(State()), 2) && State() == Step(old(State()), 2, blockAddress)
    {
      var setIndex := SetIndex(blockAddress, numCacheSets, 2);
      var tagValue := blockAddress;
      StateShaped();
      ghost var before := State();
      ghost var after := Step(before, 2, blockAddress);
      ValidIsConsistent();
      StepProperties(before, 2, blockAddress);
      TwoWaySet(setIndex, tagValue);
      SameSets(before, after, setIndex);
      ValidIsConsistent();
    }

    /** The branches of a 2-way access on set setIndex, as the source writes
        them. */
    method TwoWaySet(setIndex: int, tagValue: int)
      requires cache != null && cache.Length1 == 2 && 0 <= setIndex < cache.Length0
      modifies this`totalMisses, cache
      ensures Rows(setIndex) == TwoWayRows(old(Rows(setIndex)), tagValue)
      ensures totalMisses == old(totalMisses) + MissCount(old(Rows(setIndex)), tagValue)
      ensures forall t, w :: 0 <= t < cache.Length0 && t != setIndex && 0 <= w < 2 ==> cache[t, w] == old(cache[t, w])
    {
      ghost var before := Rows(setIndex);
      FirstHitFindsHit(before, tagValue);

      if cache[setIndex, 0].v == true && tagValue == cache[setIndex, 0].tag {
        cache[setIndex, 0] := cache[setIndex, 0].(lastUsed := true);
        cache[setIndex, 1] := cache[setIndex, 1].(lastUsed := false);
      } else if cache[setIndex, 1].v == true && tagValue == cache[setIndex, 1].tag {
        cache[setIndex, 1] := cache[setIndex, 1].(lastUsed := true);
        cache[setIndex, 0] := cache[setIndex, 0].(lastUsed := false);
      } else {
        if cache[setIndex, 0].v == false {
          cache[setIndex, 0] := cache[setIndex, 0].(tag := tagValue, v := true, lastUsed := true);
          cache[setIndex, 1] := cache[setIndex, 1].(lastUsed := false);
          totalMisses := totalMisses + 1;
        } else if cache[setIndex, 1].v == false {
          cache[setIndex, 1] := cache[setIndex, 1].(tag := tagValue, v := true, lastUsed := true);
          cache[setIndex, 0] := cache[setIndex, 0].(lastUsed := false);
          totalMisses := totalMisses + 1;
        } else {
          // both valid: replace the way that was not used last
          if cache[setIndex, 0].lastUsed == false {
            cache[setIndex, 0] := cache[setIndex, 0].(tag := tagValue, lastUsed := true);
            cache[setIndex, 1] := cache[setIndex, 1].(lastUsed := false);
            totalMisses := totalMisses + 1;
          } else {
            cache[setIndex, 1] := cache[setIndex, 1].(tag := tagValue, lastUsed := true);
            cache[setIndex, 0] := cache[setIndex, 0].(lastUsed := false);
            totalMisses := totalMisses + 1;
          }
        }
      }
      assert Rows(setIndex) == TwoWayRows(before, tagValue);
    }

    /** The way a 4-way access touches and whether it hits: the first way
        0..3 that is valid with the tag; otherwise the first invalid way;
        otherwise the way named by the tail of the set's recency list. */
    method FourWayLookup(setIndex: int, tagValue: int) returns (way: int, hit: bool)
      requires cache != null && cache.Length1 == 4 && 0 <= setIndex < cache.Length0
      requires LruValid(cache.Length0)
      ensures hit == IsHit(Rows(setIndex), tagValue)
      ensures way == FourWayWay(Rows(setIndex), lruHierarchy[setIndex].order, tagValue)
    {
      var list := lruHierarchy[setIndex];
      FirstHitFindsHit(Rows(setIndex), tagValue);
      FirstInvalidFindsInvalid(Rows(setIndex));
      WayOrderElements(list.order);
      hit := true;
      if cache[setIndex, 0].v == true && tagValue == cache[setIndex, 0].tag {
        way := 0;
      } else if cache[setIndex, 1].v == true && tagValue == cache[setIndex, 1].tag {
        way := 1;
      } else if cache[setIndex, 2].v == true && tagValue == cache[setIndex, 2].tag {
        way := 2;
      } else if cache[setIndex, 3].v == true && tagValue == cache[setIndex, 3].tag {
        way := 3;
      } else {
        hit := false;
        if cache[setIndex, 0].v == false {
          way := 0;
        } else if cache[setIndex, 1].v == false {
          way := 1;
        } else if cache[setIndex, 2].v == false {
          way := 2;
        } else if cache[setIndex, 3].v == false {
          way := 3;
        } else {
          // the tail of the recency list is the least recently used way
          var tail := list.GetTail();
          if tail == 0 {
            way := 0;
          } else {
            tail := list.GetTail();
            if tail == 1 {
              way := 1;
            } else {
              tail := list.GetTail();
              if tail == 2 {
                way := 2;
              } else {
                way := 3;
              }
            }
          }
        }
      }
    }

    /** One 4-way access: on a miss the way chosen by the lookup receives the
        tag and a valid bit and a miss is counted; hit or miss, the touched
        way is moved to the head of the set's recency list (delete, then
        add). */
    method FourWay(blockAddress: int, numCacheSets: int)
      requires Valid()
      requires cache != null && cache.Length1 == 4 && cache.Length0 == numCacheSets / 4
      requires blockAddress >= 0 && numCacheSets / 4 >= 1
      modifies this`totalMisses, cache, lists
      ensures Valid()
      ensures Shaped(old(State()), 4) && State() == Step(old(State()), 4, blockAddress)
    {
      var setIndex := SetIndex(blockAddress, numCacheSets, 4);
      var tagValue := blockAddress;
      StateShaped();
      ValidIsConsistent();
      ghost var before := State();
      var way := FourWayFill(setIndex, tagValue);
      TouchLru(setIndex, way);
      FourWayComposes(before, blockAddress, way);
      ValidAfterStep(before, 4, blockAddress);
    }

    /** The fill of the set's lines and the touch of its recency list make
        up one 4-way Step. */
    lemma FourWayComposes(before: Cache, b: int, way: int)
      requires cache != null && cache.Length1 == 4 && LruValid(cache.Length0)
      requires Shaped(before, 4) && b >= 0 && |before.sets| == cache.Length0
      requires var s := b % |before.sets|;
        way == FourWayWay(before.sets[s], before.orders[s], b) &&
        SetsOf(cache) == before.sets[s := FourWayRows(before.sets[s], before.orders[s], b)] &&
        Orders() == before.orders[s := MoveToFront(before.orders[s], way)] &&
        totalMisses == before.misses + MissCount(before.sets[s], b)
      ensures State() == Step(before, 4, b)
    {
    }

    /** The cache half of a 4-way access: on a miss the way chosen by the
        lookup receives the tag and a valid bit, and a miss is counted. */
    method FourWayFill(setIndex: int, tagValue: int) returns (way: int)
      requires cache != null && cache.Length1 == 4 && 0 <= setIndex < cache.Length0
      requires LruValid(cache.Length0)
      modifies this`totalMisses, cache
      ensures way == FourWayWay(old(Rows(setIndex)), lruHierarchy[setIndex].order, tagValue)
      ensures Rows(setIndex) == FourWayRows(old(Rows(setIndex)), lruHierarchy[setIndex].order, tagValue)
      ensures totalMisses == old(totalMisses) + MissCount(old(Rows(setIndex)), tagValue)
      ensures SetsOf(cache) == old(SetsOf(cache))[setIndex := Rows(setIndex)]
    {
      ghost var sets := SetsOf(cache);
      ghost var before := Rows(setIndex);
      ghost var order := lruHierarchy[setIndex].order;
      var hit;
      way, hit := FourWayLookup(setIndex, tagValue);
      if !hit {
        cache[setIndex, way] := cache[setIndex, way].(tag := tagValue, v := true);
        totalMisses := totalMisses + 1;
      }
      assert Rows(setIndex) == FourWayRows(before, order, tagValue);
      assert forall t :: 0 <= t < cache.Length0 && t != setIndex ==> SetsOf(cache)[t] == sets[t];
    }

    /** delete(way) then add(way) on the recency list of set setIndex: the way
        moves to the head and every other list is untouched. */
    method TouchLru(setIndex: int, way: int)
      requires cache != null && cache.Length1 == 4 && 0 <= setIndex < cache.Length0
      requires LruValid(cache.Length0) && 0 <= way < 4
      modifies lists
      ensures LruValid(cache.Length0)
      ensures lruHierarchy[setIndex].order == MoveToFront(old(lruHierarchy[setIndex].order), way)
      ensures Orders() == old(Orders())[setIndex := lruHierarchy[setIndex].order]
    {
      var list := lruHierarchy[setIndex];
      ghost var o := list.order;
      MoveToFrontKeepsWayOrder(o, way);
      WayOrderElements(o);
      assert way in o;
      var found := list.Delete(way);
      assert found;
      list.Add(way);
      assert list.order == [way] + Remove(o, way) == MoveToFront(o, way);
      assert forall t :: 0 <= t < lruHierarchy.Length && t != setIndex ==>
        lruHierarchy[t].order == old(lruHierarchy[t].order);
    }

    /** One access of the trace loop, dispatched on the set associativity:
        1 is direct-mapped, 2 is 2-way and every other value is 4-way. */
    method Access(setAssociativity: int, blockAddress: int, numCacheSets: int)
      requires Valid() && cache != null
      requires cache.Length1 == Ways(setAssociativity) && cache.Length0 == numCacheSets / cache.Length1
      requires blockAddress >= 0 && numCacheSets / cache.Length1 >= 1
      modifies this`totalMisses, cache, lists
      ensures Valid()
      ensures Shaped(old(State()), cache.Length1) && State() == Step(old(State()), cache.Length1, blockAddress)
    {
      if setAssociativity == 1 {
        DirectMap(blockAddress, numCacheSets);
      } else if setAssociativity == 2 {
        TwoWay(blockAddress, numCacheSets);
      } else {
        FourWay(blockAddress, numCacheSets);
      }
    }

    /** The loop of the source's main over the trace: each byte address is
        translated to its block address and accessed. */
    method Replay(memAddresses: seq<int>, blockSize: int, setAssociativity: int, numCacheSets: int)
      requires Valid() && cache != null && blockSize >= 1
      requires cache.Length1 == Ways(setAssociativity) && cache.Length0 == numCacheSets / cache.Length1
      requires numCacheSets / cache.Length1 >= 1
      requires forall k :: 0 <= k < |memAddresses| ==> memAddresses[k] >= 0
      modifies this`totalMisses, cache, lists
      ensures Valid()
      ensures Shaped(old(State()), cache.Length1) &&
        State() == Run(old(State()), cache.Length1, Blocks(memAddresses, blockSize))
    {
      StateShaped();
      ghost var start := State();
      ghost var blocks := Blocks(memAddresses, blockSize);
      var i := 0;
      assert blocks[..0] == [];
      while i < |memAddresses|
        invariant 0 <= i <= |memAddresses|
        invariant Valid()
        invariant State() == Run(start, cache.Length1, blocks[..i])
      {
        AccessNext(memAddresses, blockSize, setAssociativity, numCacheSets, start, blocks, i);
        i := i + 1;
      }
      assert blocks[..i] == blocks;
    }

    /** One iteration of that loop: the state moves from the run of the first
        i block addresses to the run of the first i + 1. */
    method AccessNext(memAddresses: seq<int>, blockSize: int, setAssociativity: int, numCacheSets: int,
                      ghost start: Cache, ghost blocks: seq<int>, i: int)
      requires Valid() && cache != null && blockSize >= 1
      requires cache.Length1 == Ways(setAssociativity) && cache.Length0 == numCacheSets / cache.Length1
      requires numCacheSets / cache.Length1 >= 1
      requires forall k :: 0 <= k < |memAddresses| ==> memAddresses[k] >= 0
      requires blocks == Blocks(memAddresses, blockSize) && 0 <= i < |blocks|
      requires Shaped(start, cache.Length1) && State() == Run(start, cache.Length1, blocks[..i])
      modifies this`totalMisses, cache, lists
      ensures Valid()
      ensures State() == Run(start, cache.Length1, blocks[..i + 1])
    {
      var blockAddress := BlockAddress(memAddresses[i], blockSize);
      RunPrefix(start, cache.Length1, blocks, i);
      Access(setAssociativity, blockAddress, numCacheSets);
    }
  }
}
