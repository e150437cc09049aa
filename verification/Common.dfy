/**
 Types shared by every component: bytes, hashes, addresses and machine integers.

 Hash functions are never given a body here. A member that needs one takes it as a
 parameter, and a member that needs it to be free of collisions says on which inputs.
 A hash of 32 bytes cannot be injective on all inputs, so it is never assumed to be.
 */
module Common {
  type byte = b: int | 0 <= b < 0x100
  type Bytes = seq<byte>

  /** n zero bytes. */
  function Zeros(n: nat): (r: Bytes)
    ensures |r| == n
    ensures forall i :: 0 <= i < n ==> r[i] == 0
  {
    if n == 0 then [] else Zeros(n - 1) + [0]
  }

  type Bytes32 = b: Bytes | |b| == 32 witness Zeros(32)
  type Bytes20 = b: Bytes | |b| == 20 witness Zeros(20)

  datatype Hash = Hash(bytes: Bytes32)
  datatype Address = Address(bytes: Bytes20)

  const ZERO_HASH := Hash(Zeros(32))
  const ZERO_ADDRESS := Address(Zeros(20))

  const TWO_63 := 0x8000_0000_0000_0000
  const TWO_64 := 0x1_0000_0000_0000_0000

  type u8 = x: int | 0 <= x < 0x100
  type u32 = x: int | 0 <= x < 0x1_0000_0000
  type u64 = x: int | 0 <= x < TWO_64
  type i64 = x: int | -TWO_63 <= x < TWO_63

  datatype Option<+T> = None | Some(value: T)

  datatype Result<+T, +E> = Ok(value: T) | Err(error: E)

  /** A hash function has no collision among the inputs of u. */
  ghost predicate CollisionFree<T(!new)>(hash: T -> Hash, u: set<T>) {
    forall x, y :: x in u && y in u && hash(x) == hash(y) ==> x == y
  }

  /** No element occurs twice. */
  ghost predicate Distinct<T>(s: seq<T>) {
    forall i, j :: 0 <= i < j < |s| ==> s[i] != s[j]
  }

  /** The elements of a sequence. */
  ghost function Elems<T>(s: seq<T>): set<T> {
    set x | x in s
  }

  /** A sequence without repetitions has as many elements as positions. */
  lemma {:induction false} DistinctCount<T>(s: seq<T>)
    requires Distinct(s)
    ensures |Elems(s)| == |s|
  {
    if s != [] {
      var last := |s| - 1;
      DistinctCount(s[..last]);
      assert Elems(s) == Elems(s[..last]) + {s[last]};
    }
  }

  lemma {:induction false} SubsetCount<T>(a: set<T>, b: set<T>)
    requires a <= b
    ensures |a| <= |b|
  {
    assert b == a + (b - a);
  }

  function Min(a: int, b: int): int {
    if a < b then a else b
  }

  function Max(a: int, b: int): int {
    if a > b then a else b
  }

  /** Linear search. */
  method Contains<T(==)>(list: seq<T>, x: T) returns (found: bool)
    ensures found <==> x in list
  {
    for i := 0 to |list|
      invariant x !in list[..i]
    {
      if list[i] == x { return true; }
    }
    return false;
  }
}
