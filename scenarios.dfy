/** Worked fights for the stack-duration tracker. */
module Scenarios {
  import opened BlurEvents
  import opened Bins
  import opened BlurTracker
  import BlurAnalyzer

  const ID := BLUR_OF_TALONS_BUFF_ID

  /** Gain the buff at 0, reach two stacks at 50, lose it at 80, fight ends
      at 100: 20 at no stacks (the empty interval before the first
      application included), 50 at one stack, 30 at two. */
  lemma ApplyStackRemoveScenario()
    ensures var r := Run(Initial(true, 0), [ApplyBuff(0, ID), ApplyBuffStack(50, ID, 2), RemoveBuff(80, ID), FightEnd(100)]);
      r.ok && r.after.bins == [[0, 20], [50], [30], [], [], []] && TotalTime(r.after.bins) == 100
  {
    var t0 := Initial(true, 0);
    assert t0.bins == [[], [], [], [], [], []];
    var t1 := Tracker([[0], [], [], [], [], []], 1, 0, 1);
    var t2 := Tracker([[0], [50], [], [], [], []], 2, 50, 2);
    var t3 := Tracker([[0], [50], [30], [], [], []], 0, 80, 0);
    var t4 := Tracker([[0, 20], [50], [30], [], [], []], 0, 100, 0);
    assert t0.bins[0] + [0] == [0];
    assert t0.bins[0 := t0.bins[0] + [0]] == t1.bins;
    assert OnEvent(t0, ApplyBuff(0, ID)) == Step(t1, true);
    assert t1.bins[1] + [50] == [50];
    assert t1.bins[1 := t1.bins[1] + [50]] == t2.bins;
    assert OnEvent(t1, ApplyBuffStack(50, ID, 2)) == Step(t2, true);
    assert t2.bins[2] + [30] == [30];
    assert t2.bins[2 := t2.bins[2] + [30]] == t3.bins;
    assert OnEvent(t2, RemoveBuff(80, ID)) == Step(t3, true);
    assert t3.bins[0] + [20] == [0, 20];
    assert t3.bins[0 := t3.bins[0] + [20]] == t4.bins;
    assert OnEvent(t3, FightEnd(100)) == Step(t4, true);
    var evs := [ApplyBuff(0, ID), ApplyBuffStack(50, ID, 2), RemoveBuff(80, ID), FightEnd(100)];
    assert evs[1..][1..][1..][1..] == [];
    assert Run(t3, evs[1..][1..][1..]) == Step(t4, true);
    assert Run(t2, evs[1..][1..]) == Step(t4, true);
    assert Run(t1, evs[1..]) == Step(t4, true);
    assert Run(t0, evs) == Step(t4, true);
    RunTelescopes(t0, evs);
  }

  /** Three stacks at 100 with no further event until the fight ends at 500:
      the final flush records 400 at three stacks. */
  lemma FinalFlushScenario()
    ensures var r := Run(Initial(true, 0), [ApplyBuffStack(100, ID, 3), FightEnd(500)]);
      r.ok && r.after.bins == [[100], [], [], [400], [], []] && r.after.lastBlurStack == 3
  {
    var t0 := Initial(true, 0);
    assert t0.bins == [[], [], [], [], [], []];
    var t1 := Tracker([[100], [], [], [], [], []], 3, 100, 3);
    assert t0.bins[0] + [100] == [100];
    assert t0.bins[0 := t0.bins[0] + [100]] == t1.bins;
    assert OnEvent(t0, ApplyBuffStack(100, ID, 3)) == Step(t1, true);
    assert t1.bins[3] + [400] == [400];
    assert t1.bins[3 := t1.bins[3] + [400]] == [[100], [], [], [400], [], []];
    assert OnEvent(t1, FightEnd(500)) == Step(Tracker([[100], [], [], [400], [], []], 3, 500, 3), true);
    var evs := [ApplyBuffStack(100, ID, 3), FightEnd(500)];
    assert evs[1..][1..] == [];
    assert Run(t0, evs) == Step(Tracker([[100], [], [], [400], [], []], 3, 500, 3), true);
  }

  /** A stack count beyond five is recorded without fault, but the next
      event indexes the missing bin and throws. */
  lemma OutOfRangeStackThrowsOnNextEvent()
    ensures var s := Run(Initial(true, 0), [ApplyBuffStack(10, ID, 6)]);
      s.ok && s.after.lastBlurStack == 6
    ensures !Run(Initial(true, 0), [ApplyBuffStack(10, ID, 6), RemoveBuff(20, ID)]).ok
  {
  }

  /** The same fight driven through the analyzer's own handlers. */
  method AnalyzerScenario(agilityOf: int -> int)
  {
    var a := new BlurAnalyzer.BlurOfTalons(true, [340], agilityOf, 0);
    var events := [ApplyBuff(0, ID), ApplyBuffStack(50, ID, 2), RemoveBuff(80, ID)];
    assert StacksInRange(events);
    var ok := a.Replay(events, 100);
    assert ok;
    assert TotalTime(a.TimesByStacks()) == 100;
    assert events + [FightEnd(100)] == [ApplyBuff(0, ID), ApplyBuffStack(50, ID, 2), RemoveBuff(80, ID), FightEnd(100)];
    ApplyStackRemoveScenario();
    assert a.TimesByStacks() == [[0, 20], [50], [30], [], [], []];
  }
}
