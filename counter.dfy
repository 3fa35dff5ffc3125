/**
 * `atomicMultipleCounter` taken sequentially: a fixed number of signed
 * counters, bounds-checked updates and reads, and their total.
 */
module Counter {

  /** `std::accumulate` from 0: the counters added up in index order. */
  function Sum(s: seq<int>): int
    decreases |s|
  {
    if s == [] then 0 else Sum(s[..|s| - 1]) + s[|s| - 1]
  }

  /** Changing one counter by `delta` changes the total by `delta`. */
  lemma {:induction false} SumUpdate(s: seq<int>, i: nat, delta: int)
    requires i < |s|
    ensures Sum(s[i := s[i] + delta]) == Sum(s) + delta
    decreases |s|
  {
    var t := s[i := s[i] + delta];
    if i < |s| - 1 {
      assert t[..|t| - 1] == s[..|s| - 1][i := s[i] + delta];
      SumUpdate(s[..|s| - 1], i, delta);
    } else {
      assert t[..|t| - 1] == s[..|s| - 1];
    }
  }

  /** A fresh counter set adds up to 0. */
  lemma {:induction false} SumZeros(n: nat)
    ensures Sum(seq(n, _ => 0)) == 0
  {
    if n > 0 {
      assert seq(n, _ => 0)[..n - 1] == seq(n - 1, _ => 0);
      SumZeros(n - 1);
    }
  }

  class AtomicMultipleCounter {
    /** One counter per shared object; the vector is never resized. */
    const counters: array<int>

    /** `n` counters, each stored as 0. */
    constructor (counterCount: nat)
      ensures fresh(counters)
      ensures counters.Length == counterCount
      ensures counters[..] == seq(counterCount, _ => 0)
    {
      var a := new int[counterCount];
      var i := 0;
      while i < counterCount
        invariant 0 <= i <= counterCount
        invariant forall j :: 0 <= j < i ==> a[j] == 0
      {
        a[i] := 0;
        i := i + 1;
      }
      counters := a;
    }

    /**
     * Adds 1 to counter `index`; an index past the end only logs an error and
     * changes nothing.
     */
    method Increment(index: nat)
      modifies counters
      ensures index < counters.Length ==> counters[..] == old(counters[..])[index := old(counters[index]) + 1]
      ensures index >= counters.Length ==> counters[..] == old(counters[..])
    {
      if index >= counters.Length {
        return;
      }
      counters[index] := counters[index] + 1;
    }

    /** Subtracts 1 from counter `index` (values may go negative); out of range changes nothing. */
    method Decrement(index: nat)
      modifies counters
      ensures index < counters.Length ==> counters[..] == old(counters[..])[index := old(counters[index]) - 1]
      ensures index >= counters.Length ==> counters[..] == old(counters[..])
    {
      if index >= counters.Length {
        return;
      }
      counters[index] := counters[index] - 1;
    }

    /** Counter `index`, or 0 (after logging an error) when there is no such counter. */
    function Get(index: nat): (v: int)
      reads counters
      ensures index < counters.Length ==> v == counters[index]
      ensures index >= counters.Length ==> v == 0
    {
      if index >= counters.Length then 0 else counters[index]
    }

    /** The sum of all counters, accumulated from 0 in index order. */
    method GetTotal() returns (total: int)
      ensures total == Sum(counters[..])
    {
      total := 0;
      var i := 0;
      while i < counters.Length
        invariant 0 <= i <= counters.Length
        invariant total == Sum(counters[..i])
      {
        assert counters[..i + 1][..i] == counters[..i];
        total := total + counters[i];
        i := i + 1;
      }
      assert counters[..i] == counters[..];
    }

    /** The number of counters, which is the constructor's argument for the counter's whole life. */
    function Size(): (n: nat)
      ensures n == counters.Length
    {
      counters.Length
    }
  }

  /** An increment in range raises the total by exactly one; out of range it leaves it alone. */
  lemma IncrementTotal(before: seq<int>, index: nat)
    ensures index < |before| ==> Sum(before[index := before[index] + 1]) == Sum(before) + 1
  {
    if index < |before| { SumUpdate(before, index, 1); }
  }

  /** A decrement in range lowers the total by exactly one. */
  lemma DecrementTotal(before: seq<int>, index: nat)
    ensures index < |before| ==> Sum(before[index := before[index] - 1]) == Sum(before) - 1
  {
    if index < |before| { SumUpdate(before, index, -1); }
  }
}
