/** One cache set as a value: the sequence of its lines (the source's Row
    objects), and what one access does to it under each of the three
    placement policies.  These functions are the specification that the
    methods of Simulator.CacheSimulator are proved against. */
module CacheSets {
  import opened Recency

  /** A cache line: its tag, the 2-way recency flag and the valid bit. */
  datatype Row = Row(tag: int, lastUsed: bool, v: bool)

  /** Every Row starts with tag 0 and both flags false. */
  const EmptyRow: Row := Row(0, false, false)

  /** The line is valid and holds the tag. */
  predicate Holds(r: Row, tag: int)
  {
    r.v && r.tag == tag
  }

  /** Some line of the set holds the tag: the access is a hit. */
  predicate IsHit(rows: seq<Row>, tag: int)
  {
    exists w :: 0 <= w < |rows| && Holds(rows[w], tag)
  }

  predicate AllValid(rows: seq<Row>)
  {
    forall w :: 0 <= w < |rows| ==> rows[w].v
  }

  /** No two valid lines of the set hold the same tag. */
  predicate UniqueTags(rows: seq<Row>)
  {
    forall i, j :: 0 <= i < j < |rows| && rows[i].v && rows[j].v ==> rows[i].tag != rows[j].tag
  }

  /** Every valid line of `after` either holds `tag` or holds the tag it held,
      valid, in `before`: an access writes no tag but its own. */
  predicate OnlyWrites(before: seq<Row>, after: seq<Row>, tag: int)
  {
    |before| == |after| &&
    forall w :: 0 <= w < |after| && after[w].v ==> after[w].tag == tag || Holds(before[w], after[w].tag)
  }

  /** The first way at or after `from` that holds the tag, or |rows| if none. */
  function FirstHit(rows: seq<Row>, tag: int, from: nat): (w: nat)
    requires from <= |rows|
    ensures from <= w <= |rows|
    ensures w < |rows| ==> Holds(rows[w], tag)
    ensures forall u :: from <= u < w ==> !Holds(rows[u], tag)
    decreases |rows| - from
  {
    if from == |rows| then from
    else if Holds(rows[from], tag) then from
    else FirstHit(rows, tag, from + 1)
  }

  /** The first way at or after `from` whose valid bit is false, or |rows|. */
  function FirstInvalid(rows: seq<Row>, from: nat): (w: nat)
    requires from <= |rows|
    ensures from <= w <= |rows|
    ensures w < |rows| ==> !rows[w].v
    ensures forall u :: from <= u < w ==> rows[u].v
    decreases |rows| - from
  {
    if from == |rows| then from
    else if !rows[from].v then from
    else FirstInvalid(rows, from + 1)
  }

  /** The scan finds a way exactly when the access is a hit. */
  lemma FirstHitFindsHit(rows: seq<Row>, tag: int)
    ensures FirstHit(rows, tag, 0) < |rows| <==> IsHit(rows, tag)
  {
    if IsHit(rows, tag) {
      var w :| 0 <= w < |rows| && Holds(rows[w], tag);
      assert FirstHit(rows, tag, 0) <= w;
    }
  }

  lemma FirstInvalidFindsInvalid(rows: seq<Row>)
    ensures FirstInvalid(rows, 0) < |rows| <==> !AllValid(rows)
  {
  }

  // ---------------------------------------------------------------------
  // Direct-mapped: one line per set.

  /** A direct-mapped access: the one line ends valid with the tag. */
  function DirectMapRows(rows: seq<Row>, tag: int): (r: seq<Row>)
    requires |rows| == 1
    ensures |r| == 1 && Holds(r[0], tag) && r[0].lastUsed == rows[0].lastUsed
  {
    [rows[0].(tag := tag, v := true)]
  }

  /** A hit is exactly a valid line holding the tag and changes nothing; a
      miss overwrites the tag and sets the valid bit; either way the block is
      resident afterwards and no other tag appears. */
  lemma DirectMapAccess(rows: seq<Row>, tag: int)
    requires |rows| == 1
    ensures var r := DirectMapRows(rows, tag);
      (IsHit(rows, tag) <==> Holds(rows[0], tag)) &&
      (IsHit(rows, tag) ==> r == rows) &&
      (!IsHit(rows, tag) ==> r[0] == Row(tag, rows[0].lastUsed, true)) &&
      IsHit(r, tag) && UniqueTags(r) && OnlyWrites(rows, r, tag)
  {
    var r := DirectMapRows(rows, tag);
    assert Holds(r[0], tag);
  }

  // ---------------------------------------------------------------------
  // 2-way: two lines per set and a one-bit "last used" flag per line.

  /** What the 2-way flags satisfy between accesses: never both set, and one
      of them set as soon as either line is valid. */
  predicate FlagsConsistent(way0: Row, way1: Row)
  {
    !(way0.lastUsed && way1.lastUsed) &&
    ((way0.v || way1.v) ==> (way0.lastUsed || way1.lastUsed))
  }

  /** The way a 2-way access touches: the way that hits (way 0 first); on a
      miss the first invalid way; with both valid, way 0 unless it was the
      last used. */
  function TwoWayWay(rows: seq<Row>, tag: int): (w: nat)
    requires |rows| == 2
    ensures w < 2
    ensures IsHit(rows, tag) ==> Holds(rows[w], tag)
  {
    FirstHitFindsHit(rows, tag);
    var h := FirstHit(rows, tag, 0);
    if h < 2 then h
    else
      var f := FirstInvalid(rows, 0);
      if f < 2 then f
      else if !rows[0].lastUsed then 0 else 1
  }

  /** The choice of way: hits check way 0 before way 1; a miss fills way 0 if
      it is invalid, else way 1 if it is invalid, else evicts the way whose
      flag is clear, which, when the flags are consistent, is the way not used
      last. */
  lemma TwoWayChoice(rows: seq<Row>, tag: int)
    requires |rows| == 2
    ensures var w := TwoWayWay(rows, tag);
      (IsHit(rows, tag) ==> Holds(rows[w], tag) && (w == 1 ==> !Holds(rows[0], tag))) &&
      (!IsHit(rows, tag) && !rows[0].v ==> w == 0) &&
      (!IsHit(rows, tag) && rows[0].v && !rows[1].v ==> w == 1) &&
      (!IsHit(rows, tag) && AllValid(rows) ==> (w == 0 <==> !rows[0].lastUsed)) &&
      (!IsHit(rows, tag) && AllValid(rows) && FlagsConsistent(rows[0], rows[1]) ==>
         !rows[w].lastUsed && rows[1 - w].lastUsed)
  {
    FirstHitFindsHit(rows, tag);
  }

  /** A 2-way access: the touched way ends valid with the tag and the last-used
      flag, the other way keeps its tag and valid bit and loses its flag. */
  function TwoWayRows(rows: seq<Row>, tag: int): (r: seq<Row>)
    requires |rows| == 2
    ensures |r| == 2
    ensures var w := TwoWayWay(rows, tag); Holds(r[w], tag) && r[w].lastUsed && !r[1 - w].lastUsed
  {
    var w := TwoWayWay(rows, tag);
    if w == 0 then [Row(tag, true, true), rows[1].(lastUsed := false)]
    else [rows[0].(lastUsed := false), Row(tag, true, true)]
  }

  /** After a 2-way access exactly one flag is set, on the way that now holds
      the block; the other way keeps its tag and valid bit; a hit changes no
      tag or valid bit; valid bits stay set; tags stay unique; the only tag
      written is the accessed one. */
  lemma TwoWayAccess(rows: seq<Row>, tag: int)
    requires |rows| == 2
    ensures var r := TwoWayRows(rows, tag);
      var w := TwoWayWay(rows, tag);
      Holds(r[w], tag) && r[w].lastUsed && !r[1 - w].lastUsed &&
      r[1 - w].tag == rows[1 - w].tag && r[1 - w].v == rows[1 - w].v &&
      IsHit(r, tag) &&
      (IsHit(rows, tag) ==> forall u :: 0 <= u < 2 ==> r[u].tag == rows[u].tag && r[u].v == rows[u].v) &&
      (AllValid(rows) ==> AllValid(r)) &&
      FlagsConsistent(r[0], r[1]) &&
      (UniqueTags(rows) ==> UniqueTags(r)) &&
      OnlyWrites(rows, r, tag)
  {
    TwoWayChoice(rows, tag);
    var r := TwoWayRows(rows, tag);
    var w := TwoWayWay(rows, tag);
    assert Holds(r[w], tag);
  }

  // ---------------------------------------------------------------------
  // 4-way: four lines per set and a recency list per set.

  /** The way a 4-way access touches: the first way that hits; on a miss the
      first invalid way; with all four valid, the tail of the recency list. */
  function FourWayWay(rows: seq<Row>, order: seq<int>, tag: int): (w: nat)
    requires |rows| == 4 && IsWayOrder(order)
    ensures w < 4
    ensures IsHit(rows, tag) ==> Holds(rows[w], tag)
    ensures !IsHit(rows, tag) && AllValid(rows) ==> w == order[3]
  {
    WayOrderElements(order);
    FirstHitFindsHit(rows, tag);
    FirstInvalidFindsInvalid(rows);
    var h := FirstHit(rows, tag, 0);
    if h < 4 then h
    else
      var f := FirstInvalid(rows, 0);
      if f < 4 then f else order[3]
  }

  /** The choice of way: a hit is the first way 0..3 holding the tag; a miss
      fills the first invalid way; with all four valid it evicts the way at
      the tail of the recency list, the least recently used one. */
  lemma FourWayChoice(rows: seq<Row>, order: seq<int>, tag: int)
    requires |rows| == 4 && IsWayOrder(order)
    ensures var w := FourWayWay(rows, order, tag);
      (IsHit(rows, tag) ==> Holds(rows[w], tag) && forall u :: 0 <= u < w ==> !Holds(rows[u], tag)) &&
      (!IsHit(rows, tag) && !AllValid(rows) ==> !rows[w].v && forall u :: 0 <= u < w ==> rows[u].v) &&
      (!IsHit(rows, tag) && AllValid(rows) ==> w == order[3])
  {
    FirstHitFindsHit(rows, tag);
    FirstInvalidFindsInvalid(rows);
  }

  /** A 4-way access: the touched way receives the tag and a valid bit. */
  function FourWayRows(rows: seq<Row>, order: seq<int>, tag: int): (r: seq<Row>)
    requires |rows| == 4 && IsWayOrder(order)
    ensures |r| == 4
    ensures var w := FourWayWay(rows, order, tag);
      Holds(r[w], tag) && forall u :: 0 <= u < 4 && u != w ==> r[u] == rows[u]
  {
    var w := FourWayWay(rows, order, tag);
    rows[w := rows[w].(tag := tag, v := true)]
  }

  /** After a 4-way access the touched way holds the block; the other three
      lines and every flag are untouched; a hit changes nothing; valid bits
      stay set; tags stay unique; the only tag written is the accessed one. */
  lemma FourWayAccess(rows: seq<Row>, order: seq<int>, tag: int)
    requires |rows| == 4 && IsWayOrder(order)
    ensures var r := FourWayRows(rows, order, tag);
      var w := FourWayWay(rows, order, tag);
      Holds(r[w], tag) && r[w].lastUsed == rows[w].lastUsed &&
      (forall u :: 0 <= u < 4 && u != w ==> r[u] == rows[u]) &&
      IsHit(r, tag) &&
      (IsHit(rows, tag) ==> r == rows) &&
      (AllValid(rows) ==> AllValid(r)) &&
      (UniqueTags(rows) ==> UniqueTags(r)) &&
      OnlyWrites(rows, r, tag)
  {
    FourWayChoice(rows, order, tag);
    var r := FourWayRows(rows, order, tag);
    var w := FourWayWay(rows, order, tag);
    assert Holds(r[w], tag);
  }

  /** The recency list after a 4-way access: the touched way moved to the
      head. */
  function FourWayOrder(rows: seq<Row>, order: seq<int>, tag: int): (r: seq<int>)
    requires |rows| == 4 && IsWayOrder(order)
    ensures IsWayOrder(r) && r[0] == FourWayWay(rows, order, tag)
  {
    var w := FourWayWay(rows, order, tag);
    MoveToFrontKeepsWayOrder(order, w);
    MoveToFront(order, w)
  }

  /** The list stays a permutation of the four ways, the touched way is at
      its head and the other three keep their relative order. */
  lemma FourWayRecency(rows: seq<Row>, order: seq<int>, tag: int)
    requires |rows| == 4 && IsWayOrder(order)
    ensures var r := FourWayOrder(rows, order, tag);
      IsWayOrder(r) && r[0] == FourWayWay(rows, order, tag) &&
      Without(r, r[0]) == Without(order, r[0])
  {
    MoveToFrontKeepsWayOrder(order, FourWayWay(rows, order, tag));
  }

  /** The miss counter's increment for one access to a set. */
  function MissCount(rows: seq<Row>, tag: int): (n: nat)
    ensures n == 1 <==> !IsHit(rows, tag)
    ensures n <= 1
  {
    if IsHit(rows, tag) then 0 else 1
  }
}
