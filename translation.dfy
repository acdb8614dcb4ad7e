/** Translation of a raw byte address into a block address, and of a block
    address into the index of the cache set it maps to.  The tag stored in a
    line is the whole block address, so no separate tag function exists. */
module AddressTranslation {

  /** Bytes per word: the trace holds byte addresses and a word is 4 bytes. */
  const WordSize: int := 4

  /** Java's Math.floorDiv for a positive divisor: the quotient rounded toward
      negative infinity.  Dafny's `/` is Euclidean, which agrees with floor
      division whenever the divisor is positive. */
  function FloorDiv(a: int, b: int): (q: int)
    requires b > 0
    ensures q * b <= a < q * b + b
  {
    a / b
  }

  /** The floor quotient is the only integer with the defining property of
      FloorDiv. */
  lemma FloorDivUnique(a: int, b: int, q: int)
    requires b > 0
    requires q * b <= a < q * b + b
    ensures q == FloorDiv(a, b)
  {
    var d := FloorDiv(a, b);
    if q < d {
      assert (d - q) * b == d * b - q * b;
      MulAtLeastOne(d - q, b);
    } else if d < q {
      assert (q - d) * b == q * b - d * b;
      MulAtLeastOne(q - d, b);
    }
  }

  lemma MulAtLeastOne(k: int, b: int)
    requires k >= 1 && b > 0
    ensures k * b >= b
  {
    assert k * b == (k - 1) * b + b;
    assert (k - 1) * b >= 0;
  }

  /** The block address of a byte address: the word number divided by the
      block size, both divisions rounding toward negative infinity. */
  function BlockAddress(memAddress: int, blockSize: int): (b: int)
    requires blockSize > 0
    ensures memAddress >= 0 ==> b >= 0
  {
    FloorDiv(FloorDiv(memAddress, WordSize), blockSize)
  }

  /** The block address is the number of the block of WordSize * blockSize
      bytes that contains the byte address. */
  lemma BlockAddressBounds(memAddress: int, blockSize: int)
    requires blockSize > 0
    ensures var b := BlockAddress(memAddress, blockSize);
      b * (WordSize * blockSize) <= memAddress < (b + 1) * (WordSize * blockSize)
  {
    var word := FloorDiv(memAddress, WordSize);
    NestedFloor(memAddress, word, FloorDiv(word, blockSize), blockSize);
  }

  /** Two nested floor divisions by 4 and by k equal one floor division by 4k. */
  lemma NestedFloor(m: int, q: int, p: int, k: int)
    requires k > 0
    requires q * 4 <= m < q * 4 + 4
    requires p * k <= q < p * k + k
    ensures p * (4 * k) <= m < (p + 1) * (4 * k)
  {
    assert p * (4 * k) == 4 * (p * k);
    assert q <= p * k + k - 1;
    assert (p + 1) * (4 * k) == 4 * (p * k + k);
  }

  /** Translating in two steps is the same as one floor division of the byte
      address by the number of bytes in a block. */
  lemma BlockAddressIsOneDivision(memAddress: int, blockSize: int)
    requires blockSize > 0
    ensures BlockAddress(memAddress, blockSize) == FloorDiv(memAddress, WordSize * blockSize)
  {
    var b := BlockAddress(memAddress, blockSize);
    BlockAddressBounds(memAddress, blockSize);
    assert (b + 1) * (WordSize * blockSize) == b * (WordSize * blockSize) + WordSize * blockSize;
    FloorDivUnique(memAddress, WordSize * blockSize, b);
  }

  /** Floor semantics reach negative addresses: byte address -1 lies in word
      -1, not in word 0 as a truncating division would give. */
  lemma NegativeAddressFloors()
    ensures BlockAddress(-1, 1) == -1
    ensures BlockAddress(-1, 4) == -1
    ensures BlockAddress(-17, 2) == -3
  {
  }

  /** The set a block maps to: the block address modulo the number of sets,
      which is numCacheSets / ways.  Java's `%` and `/` agree with Dafny's here
      because every operand is non-negative; a negative block address or a
      set count of zero makes the Java code fail, and the precondition
      excludes both. */
  function SetIndex(blockAddress: int, numCacheSets: int, ways: int): (s: int)
    requires blockAddress >= 0 && ways >= 1 && numCacheSets / ways >= 1
    ensures 0 <= s < numCacheSets / ways
    ensures blockAddress < numCacheSets / ways ==> s == blockAddress
  {
    blockAddress % (numCacheSets / ways)
  }

  /** Blocks that are a whole number of set counts apart share a set. */
  lemma {:induction false} SetIndexPeriodic(blockAddress: int, numCacheSets: int, ways: int, k: nat)
    requires blockAddress >= 0 && ways >= 1 && numCacheSets / ways >= 1
    ensures SetIndex(blockAddress + k * (numCacheSets / ways), numCacheSets, ways) == SetIndex(blockAddress, numCacheSets, ways)
  {
    var n := numCacheSets / ways;
    if k > 0 {
      var x := blockAddress + (k - 1) * n;
      SetIndexPeriodic(blockAddress, numCacheSets, ways, k - 1);
      assert blockAddress + k * n == x + n;
      ModUnique(x + n, n, x / n + 1, x % n);
    }
  }

  /** The Euclidean remainder is determined by any decomposition a == q*n + r
      with 0 <= r < n. */
  lemma ModUnique(a: int, n: int, q: int, r: int)
    requires n > 0 && a == q * n + r && 0 <= r < n
    ensures a % n == r
  {
    FloorDivUnique(a, n, q);
  }
}
