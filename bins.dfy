/** The per-stack bins of interval lengths, their totals, and the integer
    numerator of the average-agility accessor. */
module Bins {
  import opened BlurEvents

  /** Sum of a list of interval lengths, as a left-to-right reduce from 0. */
  function SumOf(s: seq<int>): int
    decreases |s|
  {
    if s == [] then 0 else SumOf(s[..|s| - 1]) + s[|s| - 1]
  }

  /** Time recorded across all bins. */
  function TotalTime(bins: seq<seq<int>>): int
    decreases |bins|
  {
    if bins == [] then 0 else TotalTime(bins[..|bins| - 1]) + SumOf(bins[|bins| - 1])
  }

  /** Time of each bin weighted by the bin's stack level (its index). */
  function StackWeightedTime(bins: seq<seq<int>>): int
    decreases |bins|
  {
    if bins == [] then 0
    else StackWeightedTime(bins[..|bins| - 1]) + (|bins| - 1) * SumOf(bins[|bins| - 1])
  }

  predicate NonNegative(s: seq<int>)
  {
    forall j :: 0 <= j < |s| ==> s[j] >= 0
  }

  /** Every recorded interval length is non-negative. */
  predicate AllNonNegative(bins: seq<seq<int>>)
  {
    forall i :: 0 <= i < |bins| ==> NonNegative(bins[i])
  }

  /** The inner reduce of avgAgility over one bin at stack level `level`,
      without the division by the fight duration. */
  function BinAgilityTime(bin: seq<int>, level: int, agility: int): int
    decreases |bin|
  {
    if bin == [] then 0
    else BinAgilityTime(bin[..|bin| - 1], level, agility) + bin[|bin| - 1] * level * agility
  }

  /** The outer reduce of avgAgility: the bin's index is its stack level. */
  function AvgAgilityNumerator(bins: seq<seq<int>>, agility: int): int
    decreases |bins|
  {
    if bins == [] then 0
    else AvgAgilityNumerator(bins[..|bins| - 1], agility) + BinAgilityTime(bins[|bins| - 1], |bins| - 1, agility)
  }

  lemma SumOfAppend(s: seq<int>, x: int)
    ensures SumOf(s + [x]) == SumOf(s) + x
  {
  }

  /** Appending `d` to one bin adds exactly `d` to the total time. */
  lemma {:induction false} TotalTimeAfterPush(bins: seq<seq<int>>, k: int, d: int)
    requires 0 <= k < |bins|
    ensures TotalTime(bins[k := bins[k] + [d]]) == TotalTime(bins) + d
    decreases |bins|
  {
    var n := |bins|;
    var pushed := bins[k := bins[k] + [d]];
    if k == n - 1 {
      assert pushed[..n - 1] == bins[..n - 1];
      SumOfAppend(bins[k], d);
    } else {
      assert pushed[..n - 1] == bins[..n - 1][k := bins[k] + [d]];
      TotalTimeAfterPush(bins[..n - 1], k, d);
    }
  }

  /** Bins that are all empty hold no time. */
  lemma {:induction false} TotalTimeOfEmptyBins(bins: seq<seq<int>>)
    requires forall k :: 0 <= k < |bins| ==> bins[k] == []
    ensures TotalTime(bins) == 0
    decreases |bins|
  {
    if bins != [] {
      TotalTimeOfEmptyBins(bins[..|bins| - 1]);
    }
  }

  /** Appending a non-negative length keeps every length non-negative. */
  lemma PushKeepsNonNegative(bins: seq<seq<int>>, k: int, d: int)
    requires AllNonNegative(bins) && 0 <= k < |bins| && d >= 0
    ensures AllNonNegative(bins[k := bins[k] + [d]])
  {
  }

  lemma {:induction false} SumOfNonNegative(s: seq<int>)
    requires NonNegative(s)
    ensures SumOf(s) >= 0
    decreases |s|
  {
    if s != [] {
      SumOfNonNegative(s[..|s| - 1]);
    }
  }

  /** The inner reduce factors: a bin contributes its total time times its
      stack level times the agility per stack. */
  lemma {:induction false} BinAgilityTimeFactors(bin: seq<int>, level: int, agility: int)
    ensures BinAgilityTime(bin, level, agility) == SumOf(bin) * level * agility
    decreases |bin|
  {
    if bin != [] {
      var p, x := bin[..|bin| - 1], bin[|bin| - 1];
      BinAgilityTimeFactors(p, level, agility);
      calc {
        BinAgilityTime(bin, level, agility);
        SumOf(p) * level * agility + x * level * agility;
        { assert SumOf(p) * (level * agility) + x * (level * agility) == (SumOf(p) + x) * (level * agility); }
        (SumOf(p) + x) * level * agility;
      }
    }
  }

  /** The avgAgility numerator is the agility per stack times the
      stack-weighted time of the bins. */
  lemma {:induction false} NumeratorFactors(bins: seq<seq<int>>, agility: int)
    ensures AvgAgilityNumerator(bins, agility) == agility * StackWeightedTime(bins)
    decreases |bins|
  {
    if bins != [] {
      var n := |bins|;
      NumeratorFactors(bins[..n - 1], agility);
      BinAgilityTimeFactors(bins[n - 1], n - 1, agility);
      var s := SumOf(bins[n - 1]);
      assert s * (n - 1) * agility == agility * ((n - 1) * s);
      assert AvgAgilityNumerator(bins, agility) == agility * StackWeightedTime(bins[..n - 1]) + agility * ((n - 1) * s);
    }
  }

  /** Time spent at stack level 0 carries weight 0. */
  lemma {:induction false} WeightedTimeIgnoresStackZero(bins: seq<seq<int>>, bin0: seq<int>)
    requires bins != []
    ensures StackWeightedTime(bins[0 := bin0]) == StackWeightedTime(bins)
    decreases |bins|
  {
    var n := |bins|;
    if n > 1 {
      assert bins[0 := bin0][..n - 1] == bins[..n - 1][0 := bin0];
      WeightedTimeIgnoresStackZero(bins[..n - 1], bin0);
    }
  }

  /** The avgAgility numerator gets no contribution from the stack-0 bin. */
  lemma NumeratorIgnoresStackZero(bins: seq<seq<int>>, agility: int, bin0: seq<int>)
    requires bins != []
    ensures AvgAgilityNumerator(bins[0 := bin0], agility) == AvgAgilityNumerator(bins, agility)
  {
    NumeratorFactors(bins, agility);
    NumeratorFactors(bins[0 := bin0], agility);
    WeightedTimeIgnoresStackZero(bins, bin0);
  }

  /** With non-negative lengths, weighting by level never exceeds weighting
      every bin by the highest level. */
  lemma {:induction false} WeightedTimeBounds(bins: seq<seq<int>>)
    requires AllNonNegative(bins) && bins != []
    ensures 0 <= TotalTime(bins)
    ensures 0 <= StackWeightedTime(bins) <= (|bins| - 1) * TotalTime(bins)
    decreases |bins|
  {
    var n := |bins|;
    assert AllNonNegative(bins[..n - 1]) && NonNegative(bins[n - 1]);
    SumOfNonNegative(bins[n - 1]);
    var s := SumOf(bins[n - 1]);
    if n == 1 {
      assert bins[..0] == [];
    } else {
      WeightedTimeBounds(bins[..n - 1]);
      var tp := TotalTime(bins[..n - 1]);
      assert (n - 2) * tp <= (n - 1) * tp;
      assert (n - 1) * tp + (n - 1) * s == (n - 1) * (tp + s);
    }
  }

  /** The numerator lies between 0 and MAX_BLUR_STACKS times agility times
      the recorded time: the average bonus is at most five stacks' worth. */
  lemma NumeratorBounds(bins: seq<seq<int>>, agility: int)
    requires AllNonNegative(bins) && |bins| <= BIN_COUNT && agility >= 0
    ensures 0 <= AvgAgilityNumerator(bins, agility) <= MAX_BLUR_STACKS * agility * TotalTime(bins)
  {
    NumeratorFactors(bins, agility);
    if bins != [] {
      WeightedTimeBounds(bins);
      var w, t := StackWeightedTime(bins), TotalTime(bins);
      assert w <= MAX_BLUR_STACKS * t;
      assert 0 <= agility * w <= agility * (MAX_BLUR_STACKS * t);
    }
  }
}
