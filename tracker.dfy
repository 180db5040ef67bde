/** The stack-duration tracker as a pure state machine: the specification
    the analyzer's handlers are proved against. */
module BlurTracker {
  import opened BlurEvents
  import opened Bins

  /** The analyzer's accumulation state: the bins, the stack level of the
      open interval, the time that interval began, and the level most
      recently computed from an event. */
  datatype Tracker = Tracker(bins: seq<seq<int>>, lastBlurStack: int, lastBlurUpdate: int, currentStacks: int)

  /** The state after a handler call and whether the call completed
      (`ok == false`: it threw while indexing a missing bin). */
  datatype Step = Step(after: Tracker, ok: bool)

  /** The state the analyzer starts in: six empty bins when the trait is
      equipped, none otherwise, with the open interval starting at the
      fight's start at stack level 0. */
  function Initial(active: bool, fightStart: int): (t: Tracker)
    ensures |t.bins| == (if active then BIN_COUNT else 0)
    ensures forall k :: 0 <= k < |t.bins| ==> t.bins[k] == []
    ensures TotalTime(t.bins) == 0 && t.lastBlurUpdate == fightStart && t.lastBlurStack == 0
  {
    var t := Tracker(if active then seq(BIN_COUNT, _ => []) else [], 0, fightStart, 0);
    TotalTimeOfEmptyBins(t.bins);
    t
  }

  /** The stack level an event moves to; `stack` is used by fight end only. */
  function NextStacks(e: Event, stack: int): int
  {
    match e
    case RemoveBuff(_, _) => 0
    case ApplyBuff(_, _) => 1
    case ApplyBuffStack(_, _, n) => n
    case FightEnd(_) => stack
  }

  /** Closes the interval [lastBlurUpdate, e.timestamp) into the bin of the
      level that was active during it and switches to the event's level. */
  function HandleStacks(t: Tracker, e: Event, stack: int): (r: Step)
    ensures r.ok <==> 0 <= t.lastBlurStack < |t.bins|
    ensures |r.after.bins| == |t.bins|
    ensures r.after.currentStacks == NextStacks(e, stack)
    ensures r.ok ==> r.after.lastBlurUpdate == e.timestamp && r.after.lastBlurStack == r.after.currentStacks
    ensures r.ok ==> r.after.bins[t.lastBlurStack] == t.bins[t.lastBlurStack] + [e.timestamp - t.lastBlurUpdate]
    ensures r.ok ==> forall k :: 0 <= k < |t.bins| && k != t.lastBlurStack ==> r.after.bins[k] == t.bins[k]
    ensures !r.ok ==> r.after == t.(currentStacks := NextStacks(e, stack))
  {
    var current := NextStacks(e, stack);
    if 0 <= t.lastBlurStack < |t.bins| then
      var k := t.lastBlurStack;
      Step(Tracker(t.bins[k := t.bins[k] + [e.timestamp - t.lastBlurUpdate]], current, e.timestamp, current), true)
    else
      Step(t.(currentStacks := current), false)
  }

  /** The three buff handlers and the fight-end handler in one: a buff event
      about another spell is ignored; fight end keeps the current level. */
  function OnEvent(t: Tracker, e: Event): (r: Step)
    ensures |r.after.bins| == |t.bins|
    ensures !e.FightEnd? && e.abilityId != BLUR_OF_TALONS_BUFF_ID ==> r == Step(t, true)
    ensures IsBlurBuff(e) ==> (r.ok <==> 0 <= t.lastBlurStack < |t.bins|)
    ensures IsBlurBuff(e) && r.ok ==>
              0 <= t.lastBlurStack < |t.bins| &&
              r.after.lastBlurStack == NextStacks(e, 0) && r.after.lastBlurUpdate == e.timestamp &&
              r.after.bins[t.lastBlurStack] == t.bins[t.lastBlurStack] + [e.timestamp - t.lastBlurUpdate]
    ensures e.FightEnd? && r.ok ==>
              0 <= t.lastBlurStack < |t.bins| &&
              r.after.lastBlurStack == t.lastBlurStack && r.after.lastBlurUpdate == e.timestamp &&
              r.after.bins[t.lastBlurStack] == t.bins[t.lastBlurStack] + [e.timestamp - t.lastBlurUpdate]
  {
    if e.FightEnd? then HandleStacks(t, e, t.lastBlurStack)
    else if e.abilityId == BLUR_OF_TALONS_BUFF_ID then HandleStacks(t, e, 0)
    else Step(t, true)
  }

  /** Feeds the events in order, stopping at the first handler that throws. */
  function Run(t: Tracker, events: seq<Event>): (r: Step)
    ensures |r.after.bins| == |t.bins|
    ensures events == [] ==> r == Step(t, true)
    decreases |events|
  {
    if events == [] then Step(t, true)
    else
      var s := OnEvent(t, events[0]);
      if !s.ok then s else Run(s.after, events[1..])
  }

  /** Recorded time minus the start of the open interval; the telescoping
      invariant says it never changes. */
  function Slack(t: Tracker): int
  {
    TotalTime(t.bins) - t.lastBlurUpdate
  }

  /** Each handler call adds to the bins exactly the time it moves
      lastBlurUpdate forward by. */
  lemma HandleStacksTelescopes(t: Tracker, e: Event, stack: int)
    ensures Slack(HandleStacks(t, e, stack).after) == Slack(t)
  {
    if 0 <= t.lastBlurStack < |t.bins| {
      TotalTimeAfterPush(t.bins, t.lastBlurStack, e.timestamp - t.lastBlurUpdate);
    }
  }

  lemma OnEventTelescopes(t: Tracker, e: Event)
    ensures Slack(OnEvent(t, e).after) == Slack(t)
  {
    if e.FightEnd? {
      HandleStacksTelescopes(t, e, t.lastBlurStack);
    } else if e.abilityId == BLUR_OF_TALONS_BUFF_ID {
      HandleStacksTelescopes(t, e, 0);
    }
  }

  /** Over any run, the bins gain exactly the time lastBlurUpdate advances. */
  lemma {:induction false} RunTelescopes(t: Tracker, events: seq<Event>)
    ensures Slack(Run(t, events).after) == Slack(t)
    decreases |events|
  {
    if events != [] {
      var s := OnEvent(t, events[0]);
      OnEventTelescopes(t, events[0]);
      if s.ok {
        RunTelescopes(s.after, events[1..]);
      }
    }
  }

  /** Running `a` then `b` is running `a + b`, unless `a` already threw. */
  lemma {:induction false} RunAppend(t: Tracker, a: seq<Event>, b: seq<Event>)
    ensures Run(t, a + b) == if Run(t, a).ok then Run(Run(t, a).after, b) else Run(t, a)
    decreases |a|
  {
    if a == [] {
      assert a + b == b;
    } else {
      assert (a + b)[0] == a[0];
      assert (a + b)[1..] == a[1..] + b;
      var s := OnEvent(t, a[0]);
      if s.ok {
        RunAppend(s.after, a[1..], b);
      }
    }
  }

  /** Six bins and an open interval at a level that has a bin. */
  predicate InRange(t: Tracker)
  {
    |t.bins| == BIN_COUNT && 0 <= t.lastBlurStack <= MAX_BLUR_STACKS
  }

  /** Every Blur of Talons stack event carries a level that has a bin. */
  predicate StacksInRange(events: seq<Event>)
  {
    forall i :: 0 <= i < |events| && events[i].ApplyBuffStack? && IsBlurBuff(events[i]) ==>
      0 <= events[i].stack <= MAX_BLUR_STACKS
  }

  /** While stacks stay within 0..5, no handler indexes a missing bin. */
  lemma {:induction false} RunNoFault(t: Tracker, events: seq<Event>)
    requires InRange(t) && StacksInRange(events)
    ensures Run(t, events).ok && InRange(Run(t, events).after)
    decreases |events|
  {
    if events != [] {
      var e := events[0];
      var s := OnEvent(t, e);
      assert s.ok && InRange(s.after) by {
        if e.ApplyBuffStack? && IsBlurBuff(e) {
          assert 0 <= e.stack <= MAX_BLUR_STACKS;
        }
      }
      assert StacksInRange(events[1..]) by {
        forall i | 0 <= i < |events[1..]|
          ensures events[1..][i] == events[i + 1]
        {
        }
      }
      RunNoFault(s.after, events[1..]);
    }
  }

  /** Timestamps never decrease along the event list. */
  predicate Chronological(events: seq<Event>)
  {
    forall i, j :: 0 <= i < j < |events| ==> events[i].timestamp <= events[j].timestamp
  }

  /** No event is earlier than `time`. */
  predicate NotBefore(time: int, events: seq<Event>)
  {
    forall i :: 0 <= i < |events| ==> time <= events[i].timestamp
  }

  /** With chronological events that start no earlier than the open interval,
      every recorded interval length is non-negative. */
  lemma {:induction false} RunNonNegative(t: Tracker, events: seq<Event>)
    requires AllNonNegative(t.bins) && Chronological(events) && NotBefore(t.lastBlurUpdate, events)
    ensures AllNonNegative(Run(t, events).after.bins)
    decreases |events|
  {
    if events != [] {
      var e := events[0];
      var s := OnEvent(t, e);
      assert AllNonNegative(s.after.bins) by {
        if s.after != t && s.ok {
          PushKeepsNonNegative(t.bins, t.lastBlurStack, e.timestamp - t.lastBlurUpdate);
          assert s.after.bins == t.bins[t.lastBlurStack := t.bins[t.lastBlurStack] + [e.timestamp - t.lastBlurUpdate]];
        }
      }
      if s.ok {
        var rest := events[1..];
        assert Chronological(rest) by {
          forall i, j | 0 <= i < j < |rest|
            ensures rest[i].timestamp <= rest[j].timestamp
          {
            assert rest[i] == events[i + 1] && rest[j] == events[j + 1];
          }
        }
        assert NotBefore(s.after.lastBlurUpdate, rest) by {
          forall i | 0 <= i < |rest|
            ensures s.after.lastBlurUpdate <= rest[i].timestamp
          {
            assert rest[i] == events[i + 1];
          }
        }
        RunNonNegative(s.after, rest);
      }
    }
  }

  /** A whole fight: from the initial state of an equipped trait, buff events
      with stacks in 0..5, then fight end at `fightEnd`. Nothing throws, the
      bins hold exactly the fight's duration, and no interval is negative. */
  lemma WholeFightAccounted(fightStart: int, events: seq<Event>, fightEnd: int)
    requires StacksInRange(events)
    requires Chronological(events + [FightEnd(fightEnd)])
    requires NotBefore(fightStart, events + [FightEnd(fightEnd)])
    ensures var r := Run(Initial(true, fightStart), events + [FightEnd(fightEnd)]);
      r.ok && |r.after.bins| == BIN_COUNT && r.after.lastBlurUpdate == fightEnd &&
      TotalTime(r.after.bins) == fightEnd - fightStart && AllNonNegative(r.after.bins)
  {
    var t0 := Initial(true, fightStart);
    var all := events + [FightEnd(fightEnd)];
    assert StacksInRange(all) by {
      forall i | 0 <= i < |all| && all[i].ApplyBuffStack? && IsBlurBuff(all[i])
        ensures 0 <= all[i].stack <= MAX_BLUR_STACKS
      {
        assert i < |events| && all[i] == events[i];
      }
    }
    RunNoFault(t0, all);
    RunTelescopes(t0, all);
    RunNonNegative(t0, all);
    RunAppend(t0, events, [FightEnd(fightEnd)]);
    var mid := Run(t0, events);
    assert Run(t0, all) == Run(mid.after, [FightEnd(fightEnd)]);
  }
}
