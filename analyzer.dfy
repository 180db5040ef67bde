/** The Blur of Talons analyzer: tracks how long the player spends at each
    stack count of the buff and the agility those stacks grant. */
module BlurAnalyzer {
  import opened BlurEvents
  import Bins
  import opened BlurStats
  import T = BlurTracker

  class BlurOfTalons {
    /** Whether the trait is equipped; set once at construction. */
    const active: bool
    /** Agility granted per stack. */
    const agility: int
    /** The fight's start time, where the first open interval begins. */
    const fightStart: int
    /** One bin per stack level; each bin lists the lengths of the intervals
        spent at that level. Empty (no bins) when the trait is not equipped. */
    const blurOfTalonStacks: array<seq<int>>
    var lastBlurStack: int
    var lastBlurUpdate: int
    var currentStacks: int

    /** The bins match the trait, and they hold exactly the time from the
        fight's start to the start of the open interval. */
    ghost predicate Valid()
      reads this, blurOfTalonStacks
    {
      blurOfTalonStacks.Length == (if active then BIN_COUNT else 0) &&
      Bins.TotalTime(blurOfTalonStacks[..]) == lastBlurUpdate - fightStart
    }

    ghost function State(): T.Tracker
      reads this, blurOfTalonStacks
    {
      T.Tracker(blurOfTalonStacks[..], lastBlurStack, lastBlurUpdate, currentStacks)
    }

    /** `hasTrait` and `traitRanks` describe the player's equipment;
        `agilityOf` gives the agility of one trait rank. */
    constructor (hasTrait: bool, traitRanks: seq<int>, agilityOf: int -> int, fightStart: int)
      ensures Valid() && fresh(blurOfTalonStacks)
      ensures active == hasTrait && this.fightStart == fightStart
      ensures agility == if hasTrait then BlurOfTalonsStats(traitRanks, agilityOf).agility else 0
      ensures State() == T.Initial(hasTrait, fightStart)
    {
      this.fightStart := fightStart;
      lastBlurStack := 0;
      lastBlurUpdate := fightStart;
      currentStacks := 0;
      active := hasTrait;
      if !hasTrait {
        agility := 0;
        blurOfTalonStacks := new seq<int>[0];
      } else {
        agility := BlurOfTalonsStats(traitRanks, agilityOf).agility;
        blurOfTalonStacks := new seq<int>[BIN_COUNT](_ => []);
      }
      new;
      assert blurOfTalonStacks[..] == T.Initial(hasTrait, fightStart).bins;
    }

    /** The bins, for the results table. */
    function TimesByStacks(): (r: seq<seq<int>>)
      reads this, blurOfTalonStacks
      requires Valid()
      ensures |r| == (if active then BIN_COUNT else 0)
      ensures Bins.TotalTime(r) == lastBlurUpdate - fightStart
    {
      blurOfTalonStacks[..]
    }

    /** The average-agility accessor without its final division by the
        fight duration. */
    function AvgAgilityNumerator(): (r: int)
      reads this, blurOfTalonStacks
      ensures !active && Valid() ==> r == 0
      ensures r == agility * Bins.StackWeightedTime(blurOfTalonStacks[..])
    {
      Bins.NumeratorFactors(blurOfTalonStacks[..], agility);
      Bins.AvgAgilityNumerator(blurOfTalonStacks[..], agility)
    }

    /** Closes the open interval at the event's time into the bin of the
        level that was active, then switches to the event's level. Returns
        false where the source throws: the level has no bin. */
    method HandleStacks(e: Event, stack: int) returns (ok: bool)
      requires Valid()
      modifies this, blurOfTalonStacks
      ensures Valid()
      ensures T.Step(State(), ok) == T.HandleStacks(old(State()), e, stack)
    {
      if e.RemoveBuff? {
        currentStacks := 0;
      } else if e.ApplyBuff? {
        currentStacks := 1;
      } else if e.ApplyBuffStack? {
        currentStacks := e.stack;
      } else if e.FightEnd? {
        currentStacks := stack;
      }
      if !(0 <= lastBlurStack < blurOfTalonStacks.Length) {
        return false;
      }
      blurOfTalonStacks[lastBlurStack] := blurOfTalonStacks[lastBlurStack] + [e.timestamp - lastBlurUpdate];
      lastBlurUpdate := e.timestamp;
      lastBlurStack := currentStacks;
      ok := true;
      T.HandleStacksTelescopes(old(State()), e, stack);
    }

    method OnApplyBuff(e: Event) returns (ok: bool)
      requires Valid() && e.ApplyBuff?
      modifies this, blurOfTalonStacks
      ensures Valid()
      ensures e.abilityId != BLUR_OF_TALONS_BUFF_ID ==> ok && State() == old(State())
      ensures T.Step(State(), ok) == T.OnEvent(old(State()), e)
    {
      if e.abilityId != BLUR_OF_TALONS_BUFF_ID {
        return true;
      }
      ok := HandleStacks(e, 0);
    }

    method OnApplyBuffStack(e: Event) returns (ok: bool)
      requires Valid() && e.ApplyBuffStack?
      modifies this, blurOfTalonStacks
      ensures Valid()
      ensures e.abilityId != BLUR_OF_TALONS_BUFF_ID ==> ok && State() == old(State())
      ensures T.Step(State(), ok) == T.OnEvent(old(State()), e)
    {
      if e.abilityId != BLUR_OF_TALONS_BUFF_ID {
        return true;
      }
      ok := HandleStacks(e, 0);
    }

    method OnRemoveBuff(e: Event) returns (ok: bool)
      requires Valid() && e.RemoveBuff?
      modifies this, blurOfTalonStacks
      ensures Valid()
      ensures e.abilityId != BLUR_OF_TALONS_BUFF_ID ==> ok && State() == old(State())
      ensures T.Step(State(), ok) == T.OnEvent(old(State()), e)
    {
      if e.abilityId != BLUR_OF_TALONS_BUFF_ID {
        return true;
      }
      ok := HandleStacks(e, 0);
    }

    /** Flushes the open interval at the fight's end, keeping the level. */
    method OnFightEnd(e: Event) returns (ok: bool)
      requires Valid() && e.FightEnd?
      modifies this, blurOfTalonStacks
      ensures Valid()
      ensures ok ==> lastBlurStack == old(lastBlurStack) && lastBlurUpdate == e.timestamp
      ensures T.Step(State(), ok) == T.OnEvent(old(State()), e)
    {
      ok := HandleStacks(e, lastBlurStack);
    }

    /** Delivers the player's events in order to the matching handler, then
        the fight end at `fightEnd`; stops at the first handler that throws. */
    method Replay(events: seq<Event>, fightEnd: int) returns (ok: bool)
      requires Valid()
      modifies this, blurOfTalonStacks
      ensures Valid()
      ensures T.Step(State(), ok) == T.Run(old(State()), events + [FightEnd(fightEnd)])
      ensures active && T.InRange(old(State())) && T.StacksInRange(events) ==> ok
      ensures ok ==> lastBlurUpdate == fightEnd && Bins.TotalTime(TimesByStacks()) == fightEnd - fightStart
    {
      ghost var all := events + [FightEnd(fightEnd)];
      ok := true;
      var i := 0;
      while i < |events| && ok
        invariant 0 <= i <= |events|
        invariant Valid()
        invariant ok ==> T.Run(old(State()), all) == T.Run(State(), all[i..])
        invariant !ok ==> T.Run(old(State()), all) == T.Step(State(), false)
      {
        var e := events[i];
        assert all[i..][0] == e && all[i..][1..] == all[i + 1..];
        match e {
          case ApplyBuff(_, _) => ok := OnApplyBuff(e);
          case ApplyBuffStack(_, _, _) => ok := OnApplyBuffStack(e);
          case RemoveBuff(_, _) => ok := OnRemoveBuff(e);
          case FightEnd(_) => ok := OnFightEnd(e);
        }
        i := i + 1;
      }
      if ok {
        assert all[i..] == [FightEnd(fightEnd)];
        ok := OnFightEnd(FightEnd(fightEnd));
      }
      if active && T.InRange(old(State())) && T.StacksInRange(events) {
        assert T.StacksInRange(all) by {
          forall j | 0 <= j < |all| && all[j].ApplyBuffStack? && IsBlurBuff(all[j])
            ensures 0 <= all[j].stack <= MAX_BLUR_STACKS
          {
            assert j < |events| && all[j] == events[j];
          }
        }
        T.RunNoFault(old(State()), all);
      }
    }
  }
}
