/** Agility granted per Blur of Talons stack, summed over the trait's ranks. */
module BlurStats {

  datatype Stats = Stats(agility: int)

  /** The reduce over the equipped trait ranks, starting from agility 0.
      `agilityOf(rank)` stands for the first component of the azerite effect
      calculation for Blur of Talons at that item rank. */
  function BlurOfTalonsStats(ranks: seq<int>, agilityOf: int -> int): (r: Stats)
    ensures ranks == [] ==> r.agility == 0
    ensures (forall i :: 0 <= i < |ranks| ==> agilityOf(ranks[i]) >= 0) ==> r.agility >= 0
    ensures |ranks| > 0 && (forall i :: 0 <= i < |ranks| ==> ranks[i] == ranks[0]) ==>
              r.agility == |ranks| * agilityOf(ranks[0])
    decreases |ranks|
  {
    if ranks == [] then Stats(0)
    else
      var acc := BlurOfTalonsStats(ranks[..|ranks| - 1], agilityOf);
      Stats(acc.agility + agilityOf(ranks[|ranks| - 1]))
  }

  /** Each rank contributes independently: the fold is additive over
      concatenation of rank lists. */
  lemma {:induction false} StatsAppend(a: seq<int>, b: seq<int>, agilityOf: int -> int)
    ensures BlurOfTalonsStats(a + b, agilityOf).agility ==
            BlurOfTalonsStats(a, agilityOf).agility + BlurOfTalonsStats(b, agilityOf).agility
    decreases |b|
  {
    if b == [] {
      assert a + b == a;
    } else {
      var b' := b[..|b| - 1];
      assert (a + b)[..|a + b| - 1] == a + b';
      assert (a + b)[|a + b| - 1] == b[|b| - 1];
      StatsAppend(a, b', agilityOf);
    }
  }
}
