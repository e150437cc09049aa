/**
 The validator set of the consensus engine: quorum sizes, the primary of a view and
 reconfiguration by one validator at a time.
 */
module Validators {
  import opened Common

  /** Votes needed for a decision among n validators. */
  function Quorum(n: nat): nat {
    n * 2 / 3 + 1
  }

  /** Faulty validators tolerated among n. Go divides toward zero, so n == 0 gives 0. */
  function FaultTolerance(n: nat): nat {
    if n == 0 then 0 else (n - 1) / 3
  }

  /**
   The primary of a view. The source converts the view to a signed 64-bit integer and
   takes Go's remainder, which has the sign of the dividend; a negative index panics,
   which is None here. Without validators the zero address is returned.
   */
  function Primary(validators: seq<Address>, view: u64): Option<Address> {
    if |validators| == 0 then
      Some(ZERO_ADDRESS)
    else if view < TWO_63 then
      Some(validators[view % |validators|])
    else if (TWO_64 - view) % |validators| == 0 then
      Some(validators[0])
    else
      None
  }

  /** The position of the first occurrence. */
  function IndexOf<T(==)>(s: seq<T>, x: T): (i: nat)
    requires x in s
    ensures i < |s| && s[i] == x
    ensures x !in s[..i]
  {
    if s[0] == x then 0
    else
      assert s == [s[0]] + s[1..];
      var k := IndexOf(s[1..], x);
      assert s[..k + 1] == [s[0]] + s[1..][..k];
      k + 1
  }

  /** What remains of s when its first x is overwritten by the last entry and the end is cut off. */
  function SwapRemove<T(==)>(s: seq<T>, x: T): seq<T>
    requires x in s
  {
    s[IndexOf(s, x) := s[|s| - 1]][..|s| - 1]
  }

  lemma SwapRemoveKeepsTheRest<T>(s: seq<T>, x: T)
    requires Distinct(s) && x in s
    ensures Distinct(SwapRemove(s, x))
    ensures |SwapRemove(s, x)| == |s| - 1
    ensures Elems(SwapRemove(s, x)) == Elems(s) - {x}
  {
    var i := IndexOf(s, x);
    var r := SwapRemove(s, x);
    forall y | y in Elems(s) - {x}
      ensures y in r
    {
      var k := IndexOf(s, y);
      if k == |s| - 1 { assert r[i] == y; } else { assert r[k] == y; }
    }
  }

  /** One administrative change of the validator list. */
  datatype Change = Add(addr: Address) | Remove(addr: Address)

  function Reconfigure(validators: seq<Address>, change: Change): seq<Address> {
    match change
    case Add(a) => if a in validators then validators else validators + [a]
    case Remove(a) => if a in validators then SwapRemove(validators, a) else validators
  }

  lemma ReconfigureKeepsDistinct(validators: seq<Address>, change: Change)
    requires Distinct(validators)
    ensures Distinct(Reconfigure(validators, change))
    ensures Elems(Reconfigure(validators, change)) ==
            match change { case Add(a) => Elems(validators) + {a} case Remove(a) => Elems(validators) - {a} }
  {
    if change.Remove? && change.addr in validators {
      SwapRemoveKeepsTheRest(validators, change.addr);
    }
  }

  /** A quorum is the smallest number above two thirds, and fewer than a third may be faulty, as many as can be. */
  lemma ThirdsOfValidators(n: nat)
    ensures 3 * (Quorum(n) - 1) <= 2 * n < 3 * Quorum(n)
    ensures n >= 1 ==> 3 * FaultTolerance(n) < n <= 3 * (FaultTolerance(n) + 1)
  {
  }

  /** Enough correct validators exist to form a quorum without the faulty ones. */
  lemma QuorumIsReachable(n: nat)
    requires n >= 1
    ensures Quorum(n) <= n - FaultTolerance(n)
  {
  }

  /** Two sets drawn from one universe overlap by what their sizes exceed it. */
  lemma Overlap<T>(a: set<T>, b: set<T>, universe: set<T>)
    requires a <= universe && b <= universe
    ensures |a * b| >= |a| + |b| - |universe|
  {
    SubsetCount(a + b, universe);
  }

  /** Any two quorums of one validator list share more validators than may be faulty. */
  lemma QuorumsOverlap(validators: seq<Address>, a: set<Address>, b: set<Address>)
    requires Distinct(validators)
    requires a <= Elems(validators) && |a| >= Quorum(|validators|)
    requires b <= Elems(validators) && |b| >= Quorum(|validators|)
    ensures |a * b| > FaultTolerance(|validators|)
  {
    DistinctCount(validators);
    Overlap(a, b, Elems(validators));
  }

  /** The overlap survives one reconfiguration, for the larger of the two fault bounds. */
  lemma QuorumsOverlapAcrossReconfiguration(before: seq<Address>, change: Change, a: set<Address>, b: set<Address>)
    requires Distinct(before)
    requires a <= Elems(before) && |a| >= Quorum(|before|)
    requires b <= Elems(Reconfigure(before, change)) && |b| >= Quorum(|Reconfigure(before, change)|)
    ensures |a * b| > FaultTolerance(|before|)
    ensures |a * b| > FaultTolerance(|Reconfigure(before, change)|)
  {
    var after := Reconfigure(before, change);
    ReconfigureKeepsDistinct(before, change);
    DistinctCount(before);
    DistinctCount(after);
    Overlap(a, b, if |after| > |before| then Elems(after) else Elems(before));
  }

  /** No multiple of n lies strictly between 0 and n. */
  lemma NoMultipleBetween(d: int, n: nat)
    ensures !(0 < d * n < n)
  {
    if d >= 1 { assert (d - 1) * n >= 0; } else { assert (-d) * n >= 0; }
  }

  lemma RemaindersDiffer(a: nat, b: nat, n: nat)
    requires a < b < a + n
    ensures a % n != b % n
  {
    NoMultipleBetween(b / n - a / n, n);
    assert a == a / n * n + a % n && b == b / n * n + b % n;
    assert (b / n - a / n) * n == b / n * n - a / n * n;
  }

  /** Consecutive views, as many as there are validators, have pairwise different primaries. */
  lemma ConsecutivePrimariesDiffer(validators: seq<Address>, view: nat, i: nat, j: nat)
    requires Distinct(validators) && i < j < i + |validators| && view + j < TWO_63
    ensures Primary(validators, view + i).Some? && Primary(validators, view + j).Some?
    ensures Primary(validators, view + i) != Primary(validators, view + j)
  {
    RemaindersDiffer(view + i, view + j, |validators|);
  }

  /**
   From view 2^63 on there is a primary exactly for every view as far from 2^64 as a multiple
   of the number of validators, and it is the first; without validators it is the zero address.
   */
  lemma PrimaryOfHugeViews(validators: seq<Address>, view: u64)
    ensures |validators| == 0 ==> Primary(validators, view) == Some(ZERO_ADDRESS)
    ensures |validators| > 0 && view >= TWO_63 ==>
      Primary(validators, view) == if (TWO_64 - view) % |validators| == 0 then Some(validators[0]) else None
    ensures |validators| > 0 && view < TWO_63 ==> Primary(validators, view) == Some(validators[view % |validators|])
  {
  }

  /** Among FaultTolerance + 1 consecutive views below 2^63, one has a correct primary. */
  lemma SomePrimaryIsCorrect(validators: seq<Address>, faulty: set<Address>, view: nat) returns (i: nat)
    requires Distinct(validators) && |validators| >= 1
    requires |Elems(validators) * faulty| <= FaultTolerance(|validators|)
    requires view + FaultTolerance(|validators|) < TWO_63
    ensures i <= FaultTolerance(|validators|)
    ensures Primary(validators, view + i).Some?
    ensures Primary(validators, view + i).value in validators
    ensures Primary(validators, view + i).value !in faulty
  {
    var f := FaultTolerance(|validators|);
    ghost var seen: seq<Address> := [];
    i := 0;
    while i <= f && Primary(validators, view + i).value in faulty
      invariant i == |seen| <= f + 1
      invariant forall k :: 0 <= k < i ==>
        Primary(validators, view + k) == Some(seen[k]) && seen[k] in validators && seen[k] in faulty
    {
      seen := seen + [Primary(validators, view + i).value];
      i := i + 1;
    }
    if i == f + 1 {
      forall k, l | 0 <= k < l < |seen|
        ensures seen[k] != seen[l]
      {
        ConsecutivePrimariesDiffer(validators, view, k, l);
      }
      DistinctCount(seen);
      SubsetCount(Elems(seen), Elems(validators) * faulty);
      assert false;
    }
  }

  /** The mutable validator set held by an engine. */
  class ValidatorSet {
    var validators: seq<Address>
    var viewNumber: u64

    constructor (validators: seq<Address>)
      ensures this.validators == validators && viewNumber == 0
    {
      this.validators := validators;
      viewNumber := 0;
    }

    method IsValidator(addr: Address) returns (found: bool)
      ensures found <==> addr in validators
    {
      for i := 0 to |validators|
        invariant addr !in validators[..i]
      {
        if validators[i] == addr { return true; }
      }
      return false;
    }

    /** None is the panic of a negative index. */
    method GetPrimary() returns (primary: Option<Address>)
      ensures primary == Primary(validators, viewNumber)
    {
      if |validators| == 0 { return Some(ZERO_ADDRESS); }
      var signed := if viewNumber < TWO_63 then viewNumber else viewNumber - TWO_64;
      var idx := if signed >= 0 then signed % |validators| else -((-signed) % |validators|);
      if idx < 0 { return None; }
      return Some(validators[idx]);
    }

    method UpdateView(view: u64)
      modifies this`viewNumber
      ensures viewNumber == view
    {
      viewNumber := view;
    }

    /** Fails exactly when the address is already listed. */
    method AddValidator(addr: Address) returns (ok: bool)
      modifies this`validators
      ensures ok <==> addr !in old(validators)
      ensures validators == Reconfigure(old(validators), Add(addr))
    {
      var listed := IsValidator(addr);
      if listed { return false; }
      validators := validators + [addr];
      return true;
    }

    /** Fails exactly when the address is not listed. */
    method RemoveValidator(addr: Address) returns (ok: bool)
      modifies this`validators
      ensures ok <==> addr in old(validators)
      ensures validators == Reconfigure(old(validators), Remove(addr))
    {
      for i := 0 to |validators|
        invariant validators == old(validators)
        invariant addr !in validators[..i]
      {
        if validators[i] == addr {
          assert i == IndexOf(validators, addr);
          validators := validators[i := validators[|validators| - 1]];
          validators := validators[..|validators| - 1];
          return true;
        }
      }
      return false;
    }
  }
}
