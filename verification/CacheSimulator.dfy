/**
 The prefix-cache simulator: each request hits what it shares with the one before.
 Misses add up to at least the size of the last request, and to exactly that when
 every request extends the previous one.
 */
module CacheSimulator {
  import opened Wrappers

  type Wire = seq<bv8>

  datatype Usage = Usage(input: nat, hit: nat, miss: nat)

  function EstimateTokens(bytes: nat): (tokens: nat)
    ensures 3 * tokens - 2 <= bytes <= 3 * tokens
  {
    (bytes + 2) / 3
  }

  /** `n` is the length of the longest common prefix. */
  ghost predicate IsCommonPrefix(first: Wire, second: Wire, n: nat) {
    && n <= |first| && n <= |second| && first[..n] == second[..n]
    && (n < |first| && n < |second| ==> first[n] != second[n])
  }

  lemma {:induction false} CommonPrefixUnique(first: Wire, second: Wire, m: nat, n: nat)
    requires IsCommonPrefix(first, second, m) && IsCommonPrefix(first, second, n)
    ensures m == n
  {
    PrefixAgrees(first, second, m);
    PrefixAgrees(first, second, n);
  }

  lemma {:induction false} PrefixAgrees(first: Wire, second: Wire, n: nat)
    requires n <= |first| && n <= |second| && first[..n] == second[..n]
    ensures forall i :: 0 <= i < n ==> first[i] == second[i]
  {
    assert forall i :: 0 <= i < n ==> first[i] == first[..n][i] && second[i] == second[..n][i];
  }

  /** The longest common prefix with the previous wire, none of it before the first. */
  ghost function Shared(wires: seq<Wire>, i: nat): (n: nat)
    requires i < |wires|
    ensures n <= |wires[i]|
  {
    if i == 0 then 0
    else
      CommonPrefixExists(wires[i - 1], wires[i], 0);
      var n: nat :| IsCommonPrefix(wires[i - 1], wires[i], n);
      n
  }

  lemma {:induction false} CommonPrefixExists(first: Wire, second: Wire, from: nat)
    requires from <= |first| && from <= |second| && first[..from] == second[..from]
    ensures exists n: nat :: IsCommonPrefix(first, second, n)
    decreases |first| - from
  {
    if from < |first| && from < |second| && first[from] == second[from] {
      assert first[..from + 1] == first[..from] + [first[from]] && second[..from + 1] == second[..from] + [second[from]];
      CommonPrefixExists(first, second, from + 1);
    } else {
      assert IsCommonPrefix(first, second, from);
    }
  }

  method LongestCommonPrefix(first: Option<Wire>, second: Wire) returns (n: nat)
    ensures first.None? ==> n == 0
    ensures first.Some? ==> IsCommonPrefix(first.value, second, n)
  {
    if first.None? {
      return 0;
    }
    var limit := if |first.value| < |second| then |first.value| else |second|;
    n := 0;
    while n < limit && first.value[n] == second[n]
      invariant 0 <= n <= limit && first.value[..n] == second[..n]
    {
      assert first.value[..n + 1] == first.value[..n] + [first.value[n]] && second[..n + 1] == second[..n] + [second[n]];
      n := n + 1;
    }
  }

  /** The usage of one request, from the true longest common prefix with its predecessor. */
  ghost function UsageOf(wires: seq<Wire>, i: nat): Usage
    requires i < |wires|
  {
    var input, hit := EstimateTokens(|wires[i]|), EstimateTokens(Shared(wires, i));
    Usage(input, hit, if hit <= input then input - hit else 0)
  }

  class Simulator {
    var previous: Option<Wire>

    constructor ()
      ensures previous == None
    {
      previous := None;
    }

    method Reset()
      modifies this
      ensures previous == None
    {
      previous := None;
    }

    method Observe(wire: Wire) returns (usage: Usage)
      modifies this
      ensures previous == Some(wire)
      ensures usage.hit + usage.miss == usage.input == EstimateTokens(|wire|)
      ensures old(previous).None? ==> usage.hit == 0
      ensures old(previous).Some? ==> exists n: nat :: IsCommonPrefix(old(previous).value, wire, n) && usage.hit == EstimateTokens(n)
    {
      var n := LongestCommonPrefix(previous, wire);
      var input, shared := EstimateTokens(|wire|), EstimateTokens(n);
      var hit := if shared < input then shared else input;
      usage := Usage(input, hit, input - hit);
      previous := Some(wire);
    }
  }

  /** Observing a whole sequence of requests from a fresh simulator. */
  method ObserveAll(wires: seq<Wire>) returns (usages: seq<Usage>)
    ensures |usages| == |wires| && forall i :: 0 <= i < |wires| ==> usages[i] == UsageOf(wires, i)
  {
    usages := [];
    var simulator := new Simulator();
    var i := 0;
    while i < |wires|
      invariant 0 <= i <= |wires| && |usages| == i && fresh(simulator)
      invariant simulator.previous == if i == 0 then None else Some(wires[i - 1])
      invariant forall k :: 0 <= k < i ==> usages[k] == UsageOf(wires, k)
    {
      var usage := simulator.Observe(wires[i]);
      ObservedIs(wires, i, usage);
      usages := usages + [usage];
      i := i + 1;
    }
  }

  lemma {:induction false} ObservedIs(wires: seq<Wire>, i: nat, usage: Usage)
    requires i < |wires| && usage.hit + usage.miss == usage.input == EstimateTokens(|wires[i]|)
    requires i == 0 ==> usage.hit == 0
    requires i > 0 ==> exists n: nat :: IsCommonPrefix(wires[i - 1], wires[i], n) && usage.hit == EstimateTokens(n)
    ensures usage == UsageOf(wires, i)
  {
    if i > 0 {
      var n: nat :| IsCommonPrefix(wires[i - 1], wires[i], n) && usage.hit == EstimateTokens(n);
      CommonPrefixUnique(wires[i - 1], wires[i], n, Shared(wires, i));
    }
  }

  ghost function TotalMisses(wires: seq<Wire>, n: nat): nat
    requires n <= |wires|
  {
    if n == 0 then 0 else TotalMisses(wires, n - 1) + UsageOf(wires, n - 1).miss
  }

  /** Nothing of the previous request up to `n` was lost to the token rounding. */
  ghost predicate FullReuse(wires: seq<Wire>, n: nat)
    requires n <= |wires|
  {
    forall i :: 1 <= i < n ==> EstimateTokens(Shared(wires, i)) == EstimateTokens(|wires[i - 1]|)
  }

  /** Misses cover at least the last request, and exactly it when each request reuses the whole one before. */
  lemma {:induction false} MissesCoverLast(wires: seq<Wire>, n: nat)
    requires 0 < n <= |wires|
    ensures TotalMisses(wires, n) >= EstimateTokens(|wires[n - 1]|)
    ensures TotalMisses(wires, n) == EstimateTokens(|wires[n - 1]|) <==> FullReuse(wires, n)
    decreases n
  {
    if n > 1 {
      MissesCoverLast(wires, n - 1);
      SharedBounded(wires, n - 1);
    } else {
      assert TotalMisses(wires, 0) == 0;
    }
  }

  lemma {:induction false} SharedBounded(wires: seq<Wire>, i: nat)
    requires 0 < i < |wires|
    ensures EstimateTokens(Shared(wires, i)) <= EstimateTokens(|wires[i - 1]|)
    ensures EstimateTokens(Shared(wires, i)) <= EstimateTokens(|wires[i]|)
  {
    assert IsCommonPrefix(wires[i - 1], wires[i], Shared(wires, i));
  }

  /** Telescoping: append-only requests miss, in all, the token estimate of the last one alone. */
  lemma {:induction false} AppendOnlyTelescopes(wires: seq<Wire>, n: nat)
    requires 0 < n <= |wires| && forall i :: 1 <= i < n ==> wires[i - 1] <= wires[i]
    ensures TotalMisses(wires, n) == EstimateTokens(|wires[n - 1]|)
  {
    forall i | 1 <= i < n
      ensures Shared(wires, i) == |wires[i - 1]|
    {
      assert IsCommonPrefix(wires[i - 1], wires[i], |wires[i - 1]|) by {
        assert wires[i - 1][..|wires[i - 1]|] == wires[i][..|wires[i - 1]|];
      }
      CommonPrefixUnique(wires[i - 1], wires[i], |wires[i - 1]|, Shared(wires, i));
    }
    MissesCoverLast(wires, n);
  }
}
