/** Worked traces, each proved for the value-level model that
    Simulator.Simulate is proved to follow. */
module Scenarios {
  import opened AddressTranslation
  import opened Recency
  import opened CacheSets
  import opened CacheModel

  /** A 2-way set accessed with A, B, A, B, A misses on the first A and the
      first B and hits on the other three accesses, where a direct-mapped
      line misses on all five (DirectMapAlternatingMisses). */
  lemma TwoWayAlternation(a: int, b: int)
    requires a >= 0 && b >= 0 && a != b
    ensures Run(EmptyCache(1, 2), 2, [a, b, a, b, a]).misses == 2
    ensures Run(EmptyCache(1, 1), 1, [a, b, a, b, a]).misses == 5
  {
    EmptyTwoWaySet(1, 0);
    TwoWayPair(EmptyCache(1, 2), [a, b, a, b, a]);
    DirectMapFiveMisses(EmptyCache(1, 1), [a, b, a, b, a]);
  }

  /** The direct-mapped half: every access evicts the other block. */
  lemma DirectMapFiveMisses(c0: Cache, t: seq<int>)
    requires Shaped(c0, 1) && |c0.sets| == 1 && !c0.sets[0][0].v && c0.misses == 0
    requires |t| == 5 && t[0] >= 0 && t[1] >= 0 && t[0] != t[1]
    requires t[2] == t[0] && t[3] == t[1] && t[4] == t[0]
    ensures Run(c0, 1, t).misses == 5
  {
    forall k | 0 <= k < |t| ensures t[k] >= 0 && t[k] % |c0.sets| == 0 {
    }
    DirectMapAlternatingMisses(c0, t, 0);
  }

  /** The same from any empty one-set 2-way cache. */
  lemma TwoWayPair(c0: Cache, t: seq<int>)
    requires Shaped(c0, 2) && |c0.sets| == 1 && c0.sets[0] == [EmptyRow, EmptyRow] && c0.misses == 0
    requires |t| == 5 && t[0] >= 0 && t[1] >= 0 && t[0] != t[1]
    requires t[2] == t[0] && t[3] == t[1] && t[4] == t[0]
    ensures Run(c0, 2, t).misses == 2
  {
    var a, b := t[0], t[1];
    assert t[..5] == t;
    assert t[..0] == [];
    OneSetTwoWayStep(c0, t, 0);
    TwoWayFill0(EmptyRow, EmptyRow, a);
    OneSetTwoWayStep(c0, t, 1);
    TwoWayFill1(Row(a, true, true), EmptyRow, b);
    OneSetTwoWayStep(c0, t, 2);
    TwoWayHit0(Row(a, false, true), Row(b, true, true), a);
    OneSetTwoWayStep(c0, t, 3);
    TwoWayHit1(Row(a, true, true), Row(b, false, true), b);
    OneSetTwoWayStep(c0, t, 4);
    TwoWayHit0(Row(a, false, true), Row(b, true, true), a);
  }

  /** On a cache of one 2-way set the access at position i of a trace is
      TwoWayRows applied to that set. */
  lemma OneSetTwoWayStep(c: Cache, t: seq<int>, i: int)
    requires Shaped(c, 2) && |c.sets| == 1 && (forall k :: 0 <= k < |t| ==> t[k] >= 0) && 0 <= i < |t|
    ensures var before, after := Run(c, 2, t[..i]), Run(c, 2, t[..i + 1]);
      after.sets[0] == TwoWayRows(before.sets[0], t[i]) &&
      after.misses == before.misses + MissCount(before.sets[0], t[i])
  {
    RunPrefix(c, 2, t, i);
    assert t[i] % |c.sets| == 0;
  }

  lemma TwoWayFill0(x: Row, y: Row, tag: int)
    requires !x.v && !y.v
    ensures TwoWayRows([x, y], tag) == [Row(tag, true, true), y.(lastUsed := false)]
    ensures MissCount([x, y], tag) == 1
  {
    FirstHitFindsHit([x, y], tag);
  }

  lemma TwoWayFill1(x: Row, y: Row, tag: int)
    requires x.v && x.tag != tag && !y.v
    ensures TwoWayRows([x, y], tag) == [x.(lastUsed := false), Row(tag, true, true)]
    ensures MissCount([x, y], tag) == 1
  {
    FirstHitFindsHit([x, y], tag);
  }

  lemma TwoWayHit0(x: Row, y: Row, tag: int)
    requires Holds(x, tag)
    ensures TwoWayRows([x, y], tag) == [Row(tag, true, true), y.(lastUsed := false)]
    ensures MissCount([x, y], tag) == 0
  {
    assert Holds([x, y][0], tag);
  }

  lemma TwoWayHit1(x: Row, y: Row, tag: int)
    requires !Holds(x, tag) && Holds(y, tag)
    ensures TwoWayRows([x, y], tag) == [x.(lastUsed := false), Row(tag, true, true)]
    ensures MissCount([x, y], tag) == 0
  {
    assert Holds([x, y][1], tag);
  }

  /** A set of an empty 2-way cache, written out. */
  lemma EmptyTwoWaySet(sets: int, s: int)
    requires 0 <= s < sets
    ensures EmptyCache(sets, 2).sets[s] == [EmptyRow, EmptyRow]
  {
    var r := EmptyCache(sets, 2).sets[s];
    assert |r| == 2 && r[0] == EmptyRow && r[1] == EmptyRow;
  }

  /** A 4-way set accessed with A, B, C, D, A, E: the first four fill ways 0
      to 3, the second A hits, and E evicts B's way, the least recently used
      one, leaving B out of the cache. */
  lemma FourWayLruEviction(a: int, b: int, c: int, d: int, e: int)
    requires a >= 0 && b >= 0 && c >= 0 && d >= 0 && e >= 0
    requires a != b && a != c && a != d && a != e && b != c && b != d && b != e
    requires c != d && c != e && d != e
    ensures var r := Run(EmptyCache(1, 4), 4, [a, b, c, d, a, e]);
      OneSetIs(r, Row(a, false, true), Row(e, false, true), Row(c, false, true), Row(d, false, true), 1, 0, 3, 2, 5) &&
      !IsHit(r.sets[0], b)
  {
    EmptyFourWaySet();
    FourWayTrace(EmptyCache(1, 4), [a, b, c, d, a, e]);
    NoWayHolds(Run(EmptyCache(1, 4), 4, [a, b, c, d, a, e]).sets[0], b);
  }

  /** The one set of an empty 4-way cache and its recency list. */
  lemma EmptyFourWaySet()
    ensures OneSetIs(EmptyCache(1, 4), EmptyRow, EmptyRow, EmptyRow, EmptyRow, 3, 2, 1, 0, 0)
  {
    var r := EmptyCache(1, 4).sets[0];
    assert |r| == 4 && r[0] == EmptyRow && r[1] == EmptyRow && r[2] == EmptyRow && r[3] == EmptyRow;
  }

  /** What FourWayTrace asks of its trace: six non-negative blocks, the
      first four distinct, the fifth equal to the first and the sixth new. */
  predicate LruTrace(t: seq<int>)
  {
    |t| == 6 && (forall k :: 0 <= k < 6 ==> t[k] >= 0) &&
    t[0] != t[1] && t[0] != t[2] && t[0] != t[3] && t[0] != t[5] && t[1] != t[2] && t[1] != t[3] &&
    t[1] != t[5] && t[2] != t[3] && t[2] != t[5] && t[3] != t[5] && t[4] == t[0]
  }

  /** The one set of a 4-way cache holds lines x0..x3, its recency list is
      [p0, p1, p2, p3], and m misses have been counted. */
  predicate OneSetIs(c: Cache, x0: Row, x1: Row, x2: Row, x3: Row, p0: int, p1: int, p2: int, p3: int, m: nat)
  {
    |c.sets| == 1 && |c.sets[0]| == 4 && |c.orders| == 1 && |c.orders[0]| == 4 &&
    c.sets[0][0] == x0 && c.sets[0][1] == x1 && c.sets[0][2] == x2 && c.sets[0][3] == x3 &&
    c.orders[0][0] == p0 && c.orders[0][1] == p1 && c.orders[0][2] == p2 && c.orders[0][3] == p3 &&
    c.misses == m
  }

  /** The same from any empty one-set 4-way cache. */
  lemma FourWayTrace(c0: Cache, t: seq<int>)
    requires Shaped(c0, 4) && OneSetIs(c0, EmptyRow, EmptyRow, EmptyRow, EmptyRow, 3, 2, 1, 0, 0)
    requires LruTrace(t)
    ensures OneSetIs(Run(c0, 4, t), Row(t[0], false, true), Row(t[5], false, true),
                     Row(t[2], false, true), Row(t[3], false, true), 1, 0, 3, 2, 5)
  {
    TraceFour(c0, t);
    RunLastTwo(c0, t);
    HitThenEvict(Run(c0, 4, t[..4]), t);
  }

  /** The first four accesses of such a trace fill the four ways in order. */
  lemma TraceFour(c0: Cache, t: seq<int>)
    requires Shaped(c0, 4) && OneSetIs(c0, EmptyRow, EmptyRow, EmptyRow, EmptyRow, 3, 2, 1, 0, 0)
    requires LruTrace(t)
    ensures OneSetIs(Run(c0, 4, t[..4]), Row(t[0], false, true), Row(t[1], false, true),
                     Row(t[2], false, true), Row(t[3], false, true), 3, 2, 1, 0, 4)
  {
    TraceTwo(c0, t);
    RunTwoMore(c0, t, 2);
    FillNextTwo(Run(c0, 4, t[..2]), t);
  }

  /** The first two accesses fill ways 0 and 1. */
  lemma TraceTwo(c0: Cache, t: seq<int>)
    requires Shaped(c0, 4) && OneSetIs(c0, EmptyRow, EmptyRow, EmptyRow, EmptyRow, 3, 2, 1, 0, 0)
    requires LruTrace(t)
    ensures OneSetIs(Run(c0, 4, t[..2]), Row(t[0], false, true), Row(t[1], false, true),
                     EmptyRow, EmptyRow, 1, 0, 3, 2, 2)
  {
    assert t[..0] == [];
    RunTwoMore(c0, t, 0);
    FillFirstTwo(c0, t);
  }

  /** The last two blocks of a trace are its last two Steps. */
  lemma RunLastTwo(c0: Cache, t: seq<int>)
    requires Shaped(c0, 4) && forall k :: 0 <= k < |t| ==> t[k] >= 0
    requires |t| >= 2
    ensures Run(c0, 4, t) == Step(Step(Run(c0, 4, t[..|t| - 2]), 4, t[|t| - 2]), 4, t[|t| - 1])
  {
    RunTwoMore(c0, t, |t| - 2);
    assert t[..|t|] == t;
  }

  /** Running two more blocks of a trace is two more Steps. */
  lemma RunTwoMore(c0: Cache, t: seq<int>, i: int)
    requires Shaped(c0, 4) && forall k :: 0 <= k < |t| ==> t[k] >= 0
    requires 0 <= i && i + 2 <= |t|
    ensures Run(c0, 4, t[..i + 2]) == Step(Step(Run(c0, 4, t[..i]), 4, t[i]), 4, t[i + 1])
  {
    RunPrefix(c0, 4, t, i);
    RunPrefix(c0, 4, t, i + 1);
  }

  /** A set of four lines none of which holds the tag misses. */
  lemma NoWayHolds(rows: seq<Row>, tag: int)
    requires |rows| == 4
    requires !Holds(rows[0], tag) && !Holds(rows[1], tag) && !Holds(rows[2], tag) && !Holds(rows[3], tag)
    ensures !IsHit(rows, tag)
  {
    forall u | 0 <= u < 4
      ensures !Holds(rows[u], tag)
    {
      assert u == 0 || u == 1 || u == 2 || u == 3;
    }
  }

  /** A and B fill ways 0 and 1. */
  lemma FillFirstTwo(c0: Cache, t: seq<int>)
    requires Shaped(c0, 4) && OneSetIs(c0, EmptyRow, EmptyRow, EmptyRow, EmptyRow, 3, 2, 1, 0, 0)
    requires LruTrace(t)
    ensures OneSetIs(Step(Step(c0, 4, t[0]), 4, t[1]),
                     Row(t[0], false, true), Row(t[1], false, true), EmptyRow, EmptyRow, 1, 0, 3, 2, 2)
  {
    StepTail(c0, t[0], 0);
    StepTail(Step(c0, 4, t[0]), t[1], 1);
  }

  /** C and D fill ways 2 and 3; the list is back to [3, 2, 1, 0]. */
  lemma FillNextTwo(c2: Cache, t: seq<int>)
    requires Shaped(c2, 4) && LruTrace(t)
    requires OneSetIs(c2, Row(t[0], false, true), Row(t[1], false, true), EmptyRow, EmptyRow, 1, 0, 3, 2, 2)
    ensures OneSetIs(Step(Step(c2, 4, t[2]), 4, t[3]), Row(t[0], false, true), Row(t[1], false, true),
                     Row(t[2], false, true), Row(t[3], false, true), 3, 2, 1, 0, 4)
  {
    StepTail(c2, t[2], 2);
    StepTail(Step(c2, 4, t[2]), t[3], 3);
  }

  /** The second A hits way 0, which leaves way 1 at the tail; E, a miss with
      every way valid, evicts way 1. */
  lemma HitThenEvict(c4: Cache, t: seq<int>)
    requires Shaped(c4, 4) && LruTrace(t)
    requires OneSetIs(c4, Row(t[0], false, true), Row(t[1], false, true),
                      Row(t[2], false, true), Row(t[3], false, true), 3, 2, 1, 0, 4)
    ensures OneSetIs(Step(Step(c4, 4, t[4]), 4, t[5]), Row(t[0], false, true), Row(t[5], false, true),
                     Row(t[2], false, true), Row(t[3], false, true), 1, 0, 3, 2, 5)
  {
    StepTail(c4, t[4], 0);
    StepTail(Step(c4, 4, t[4]), t[5], 1);
  }

  /** On a cache of one 4-way set, an access that touches the way w at the
      tail of the recency list: either the first way holding the block, or,
      on a miss, the first invalid way or, with all four valid, the tail
      itself.  Way w receives the block, the other ways keep their lines, w
      moves from the tail to the head. */
  lemma StepTail(c: Cache, tag: int, w: nat)
    requires Shaped(c, 4) && |c.sets| == 1 && tag >= 0 && w < 4
    requires var rows, order := c.sets[0], c.orders[0];
      order[3] == w &&
      ((Holds(rows[w], tag) && forall u :: 0 <= u < w ==> !Holds(rows[u], tag)) ||
       ((forall u :: 0 <= u < 4 ==> !Holds(rows[u], tag)) &&
        (forall u :: 0 <= u < w ==> rows[u].v) && (!rows[w].v || AllValid(rows))))
    ensures var after := Step(c, 4, tag);
      after.sets[0][w] == c.sets[0][w].(tag := tag, v := true) &&
      (forall u :: 0 <= u < 4 && u != w ==> after.sets[0][u] == c.sets[0][u]) &&
      after.orders[0][0] == w && after.orders[0][1] == c.orders[0][0] &&
      after.orders[0][2] == c.orders[0][1] && after.orders[0][3] == c.orders[0][2] &&
      after.misses == c.misses + (if Holds(c.sets[0][w], tag) then 0 else 1)
  {
    assert tag % |c.sets| == 0;
    FourWayTouchTail(c.sets[0], c.orders[0], tag, w);
  }

  /** One set's access that touches the way w at the tail of the list. */
  lemma FourWayTouchTail(rows: seq<Row>, order: seq<int>, tag: int, w: nat)
    requires |rows| == 4 && IsWayOrder(order) && w < 4 && order[3] == w
    requires (Holds(rows[w], tag) && forall u :: 0 <= u < w ==> !Holds(rows[u], tag)) ||
      ((forall u :: 0 <= u < 4 ==> !Holds(rows[u], tag)) &&
       (forall u :: 0 <= u < w ==> rows[u].v) && (!rows[w].v || AllValid(rows)))
    ensures FourWayWay(rows, order, tag) == w
    ensures FourWayRows(rows, order, tag) == rows[w := rows[w].(tag := tag, v := true)]
    ensures FourWayOrder(rows, order, tag) == [w, order[0], order[1], order[2]]
    ensures MissCount(rows, tag) == (if Holds(rows[w], tag) then 0 else 1)
  {
    FourWayChoice(rows, order, tag);
    WayOrderElements(order);
    assert w !in order[..3];
    RemoveFirst(order, w, 3);
    assert Remove(order, w) == order[..3];
  }

  /** Byte addresses 0, 1, 2, 3, 4, 0 with 1-word blocks: the first four
      bytes lie in block 0 and byte 4 in block 1, which maps to another set
      whenever there are two sets or more; so the trace costs two misses, the
      compulsory ones, under every associativity. */
  lemma EndToEndTrace(sets: int, ways: int)
    requires sets >= 2 && (ways == 1 || ways == 2 || ways == 4)
    ensures Run(EmptyCache(sets, ways), ways, Blocks([0, 1, 2, 3, 4, 0], 1)).misses == 2
  {
    var t := Blocks([0, 1, 2, 3, 4, 0], 1);
    assert t == [0, 0, 0, 0, 1, 0] by {
      BlockAddressBounds(1, 1);
      BlockAddressBounds(2, 1);
      BlockAddressBounds(3, 1);
      BlockAddressBounds(4, 1);
    }
    assert t[..6] == t;
    TraceMisses(EmptyCache(sets, ways), ways, t);
  }

  /** Blocks 0, 0, 0, 0, 1, 0 from a cache with no valid line and two or more
      sets: a miss, three hits, a miss in set 1 and a hit. */
  lemma TraceMisses(c0: Cache, ways: int, t: seq<int>)
    requires Shaped(c0, ways) && TagsIn(c0, {}) && c0.misses == 0 && |c0.sets| >= 2
    requires |t| == 6 && t[0] == 0 && t[1] == 0 && t[2] == 0 && t[3] == 0 && t[4] == 1 && t[5] == 0
    ensures Run(c0, ways, t).misses == 2
  {
    assert t[..6] == t;
    FirstFourAccesses(c0, ways, t);
    SmallBlocks(|c0.sets|);
    RunMiss(c0, ways, t, 4, {0});
    assert IsHit(Run(c0, ways, t[..5]).sets[0], 0);
    RunHit(c0, ways, t, 5, {0} + {t[4]});
  }

  /** With two or more sets, blocks 0 and 1 go to sets 0 and 1. */
  lemma SmallBlocks(n: int)
    requires n >= 2
    ensures 0 % n == 0 && 1 % n == 1
  {
  }

  /** Block 0 four times from an empty cache: one miss, then three hits. */
  lemma FirstFourAccesses(c0: Cache, ways: int, t: seq<int>)
    requires Shaped(c0, ways) && TagsIn(c0, {}) && c0.misses == 0
    requires |t| == 6 && t[0] == 0 && t[1] == 0 && t[2] == 0 && t[3] == 0 && t[4] == 1 && t[5] == 0
    ensures var r := Run(c0, ways, t[..4]);
      r.misses == 1 && TagsIn(r, {0}) && IsHit(r.sets[0 % |c0.sets|], 0)
  {
    FirstAccess(c0, ways, t);
    var seen := {t[0]};
    RunHit(c0, ways, t, 1, seen);
    RunHit(c0, ways, t, 2, seen);
    RunHit(c0, ways, t, 3, seen);
  }

  /** The first access of a trace to a cache with no valid line misses. */
  lemma FirstAccess(c0: Cache, ways: int, t: seq<int>)
    requires Shaped(c0, ways) && TagsIn(c0, {}) && (forall k :: 0 <= k < |t| ==> t[k] >= 0) && |t| > 0
    ensures var r := Run(c0, ways, t[..1]);
      r.misses == c0.misses + 1 && TagsIn(r, {t[0]}) && IsHit(r.sets[t[0] % |c0.sets|], t[0])
  {
    assert Run(c0, ways, t[..0]) == c0 by { assert t[..0] == []; }
    var none: set<int> := {};
    RunMiss(c0, ways, t, 0, none);
    assert none + {t[0]} == {t[0]};
  }

  /** The access at position i of a trace to a block none of whose set's
      lines can hold it misses; the block is then resident and no other set
      changes. */
  lemma {:induction false} RunMiss(c: Cache, ways: int, t: seq<int>, i: int, seen: set<int>)
    requires Shaped(c, ways) && (forall k :: 0 <= k < |t| ==> t[k] >= 0) && 0 <= i < |t|
    requires TagsIn(Run(c, ways, t[..i]), seen) && t[i] !in seen
    ensures var before, after := Run(c, ways, t[..i]), Run(c, ways, t[..i + 1]);
      after.misses == before.misses + 1 && TagsIn(after, seen + {t[i]}) &&
      IsHit(after.sets[t[i] % |c.sets|], t[i]) &&
      forall s :: 0 <= s < |c.sets| && s != t[i] % |c.sets| ==> after.sets[s] == before.sets[s]
  {
    RunPrefix(c, ways, t, i);
    StepTagsIn(Run(c, ways, t[..i]), ways, t[i], seen);
    StepProperties(Run(c, ways, t[..i]), ways, t[i]);
  }

  /** The access at position i of a trace to a block its set holds costs
      nothing and leaves the block resident. */
  lemma {:induction false} RunHit(c: Cache, ways: int, t: seq<int>, i: int, seen: set<int>)
    requires Shaped(c, ways) && (forall k :: 0 <= k < |t| ==> t[k] >= 0) && 0 <= i < |t|
    requires TagsIn(Run(c, ways, t[..i]), seen) && t[i] in seen
    requires IsHit(Run(c, ways, t[..i]).sets[t[i] % |c.sets|], t[i])
    ensures var before, after := Run(c, ways, t[..i]), Run(c, ways, t[..i + 1]);
      after.misses == before.misses && TagsIn(after, seen) &&
      IsHit(after.sets[t[i] % |c.sets|], t[i])
  {
    RunPrefix(c, ways, t, i);
    StepTagsIn(Run(c, ways, t[..i]), ways, t[i], seen);
    StepProperties(Run(c, ways, t[..i]), ways, t[i]);
    TagsInWider(Run(c, ways, t[..i + 1]), seen + {t[i]}, seen);
  }

  /** Resident tags drawn from a set are drawn from any wider one. */
  lemma TagsInWider(c: Cache, narrow: set<int>, wide: set<int>)
    requires TagsIn(c, narrow) && narrow <= wide
    ensures TagsIn(c, wide)
  {
  }
}
