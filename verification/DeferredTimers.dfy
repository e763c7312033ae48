// Whether the ring of deferred timer events has a place for every timer of the
// table.
module DeferredTimers {
  import opened Collections
  import RuleEvents
  import TimerTable

  // armed: the timers in the table, by when they were armed; fired: those whose
  // event is out; ring: the deferred ones; lost: refused by queue and ring.
  datatype Timers = Timers(armed: set<nat>, fired: set<nat>, ring: seq<nat>, next: nat, lost: set<nat>)

  datatype Step =
    | Arm
    | Expire(t: nat, room: bool)     // room: the queue takes the event
    | RunQueued(t: nat)
    | RunDeferred
    | Clear(t: nat)

  predicate Enabled(s: Timers, x: Step) {
    match x
    case Arm => |s.armed| < TimerTable.MAX_TIMERS
    case Expire(t, _) => t in s.armed && t !in s.fired
    case RunQueued(t) => t in s.fired && t !in s.ring
    case RunDeferred => s.ring != []
    case Clear(t) => t in s.armed
  }

  function Apply(s: Timers, x: Step): Timers
    requires Enabled(s, x)
  {
    match x
    case Arm => s.(armed := s.armed + {s.next}, next := s.next + 1)
    case Expire(t, room) =>
      var u := s.(fired := s.fired + {t});
      if room then u
      else if |s.ring| < RuleEvents.RING_SLOTS - 1 then u.(ring := s.ring + [t])
      else u.(lost := s.lost + {t})
    case RunQueued(t) => s.(armed := s.armed - {t})
    case RunDeferred => s.(armed := s.armed - {s.ring[0]}, ring := s.ring[1..])
    case Clear(t) => s.(armed := s.armed - {t})
  }

  predicate Legal(s: Timers, steps: seq<Step>)
    decreases |steps|
  {
    steps == [] || (Enabled(s, steps[0]) && Legal(Apply(s, steps[0]), steps[1..]))
  }

  function Run(s: Timers, steps: seq<Step>): Timers
    requires Legal(s, steps)
    decreases |steps|
  {
    if steps == [] then s else Run(Apply(s, steps[0]), steps[1..])
  }

  // A timer that is run or cleared leaves the table, and no other does.
  lemma OneLeaves(s: Timers, x: Step, t: nat)
    requires Enabled(s, x)
    ensures t in s.armed && t !in Apply(s, x).armed <==>
              t in s.armed && (x == Clear(t) || x == RunQueued(t) || (x == RunDeferred && s.ring[0] == t))
  {
  }

  const START := Timers({}, {}, [], 0, {})

  ghost predicate Fits(s: Timers) {
    && |s.armed| <= TimerTable.MAX_TIMERS && |s.ring| <= RuleEvents.RING_SLOTS - 1
    && (forall t :: t in s.armed ==> t < s.next)
    && (forall t :: t in s.fired ==> t < s.next)
    && (forall k :: 0 <= k < |s.ring| ==> s.ring[k] in s.fired)
    && (forall j, k :: 0 <= j < k < |s.ring| ==> s.ring[j] != s.ring[k])
  }

  lemma StepFits(s: Timers, x: Step)
    requires Fits(s) && Enabled(s, x)
    ensures Fits(Apply(s, x))
  {
    var t := Apply(s, x);
    match x {
      case Arm => assert |t.armed| == |s.armed| + 1;
      case Expire(_, _) =>
      case RunQueued(_) => SetWithin(t.armed, s.armed);
      case RunDeferred => SetWithin(t.armed, s.armed);
      case Clear(_) => SetWithin(t.armed, s.armed);
    }
  }

  lemma {:induction false} RunFits(s: Timers, steps: seq<Step>)
    requires Fits(s) && Legal(s, steps)
    ensures Fits(Run(s, steps))
    decreases |steps|
  {
    if steps != [] {
      StepFits(s, steps[0]);
      RunFits(Apply(s, steps[0]), steps[1..]);
    }
  }

  lemma {:induction false} AsManyAs(ring: seq<nat>, armed: set<nat>)
    requires forall k :: 0 <= k < |ring| ==> ring[k] in armed
    requires forall j, k :: 0 <= j < k < |ring| ==> ring[j] != ring[k]
    ensures |ring| <= |armed|
  {
    if ring != [] {
      var n := |ring| - 1;
      AsManyAs(ring[..n], armed - {ring[n]});
    }
  }

  // Main result: whatever timers are armed, cleared and run out, and however
  // full the queue is, the ring refuses one only while it holds the event of a
  // timer that is not in the table any more -- one cleared meanwhile. With none
  // of those there is a place for every timer.
  lemma LostMeansCleared(steps: seq<Step>, t: nat)
    requires Legal(START, steps) && Enabled(Run(START, steps), Expire(t, false))
    ensures var s, u := Run(START, steps), Apply(Run(START, steps), Expire(t, false));
            u.lost != s.lost ==> exists k :: 0 <= k < |s.ring| && s.ring[k] !in s.armed
  {
    RunFits(START, steps);
    var s := Run(START, steps);
    if |s.ring| == RuleEvents.RING_SLOTS - 1 && forall k :: 0 <= k < |s.ring| ==> s.ring[k] in s.armed {
      AsManyAs(s.ring, s.armed - {t});
    }
  }

  lemma {:induction false} RunMore(s: Timers, steps: seq<Step>, x: Step)
    requires Legal(s, steps) && Enabled(Run(s, steps), x)
    ensures Legal(s, steps + [x]) && Run(s, steps + [x]) == Apply(Run(s, steps), x)
    decreases |steps|
  {
    hide Enabled, Apply;
    if steps == [] {
      assert [] + [x] == [x] && [x][1..] == [];
    } else {
      assert (steps + [x])[1..] == steps[1..] + [x];
      RunMore(Apply(s, steps[0]), steps[1..], x);
    }
  }

  // The first n numbers.
  function First(n: nat): (s: set<nat>)
    ensures |s| == n && forall i :: i in s <==> 0 <= i < n
  {
    if n == 0 then {} else First(n - 1) + {n - 1}
  }

  // The timers armed, and the first of them run out, with no room in the queue.
  function Full(n: nat, fired: nat): Timers {
    Timers(First(n), First(fired), UpTo(fired), n, {})
  }

  lemma {:induction false} Armed(n: nat) returns (steps: seq<Step>)
    requires n <= TimerTable.MAX_TIMERS
    ensures Legal(START, steps) && Run(START, steps) == Full(n, 0)
  {
    if n == 0 {
      steps := [];
    } else {
      steps := Armed(n - 1);
      hide Legal, Run;
      assert Apply(Full(n - 1, 0), Arm) == Full(n, 0);
      RunMore(START, steps, Arm);
      steps := steps + [Arm];
    }
  }

  lemma OneDeferred(n: nat, fired: nat)
    requires 0 < fired <= n <= TimerTable.MAX_TIMERS
    ensures Enabled(Full(n, fired - 1), Expire(fired - 1, false))
    ensures Apply(Full(n, fired - 1), Expire(fired - 1, false)) == Full(n, fired)
  {
    assert First(fired) == First(fired - 1) + {fired - 1};
    assert UpTo(fired) == UpTo(fired - 1) + [fired - 1];
    hide First, UpTo;
  }

  lemma {:induction false} AllDeferred(n: nat, fired: nat) returns (steps: seq<Step>)
    requires fired <= n <= TimerTable.MAX_TIMERS
    ensures Legal(START, steps) && Run(START, steps) == Full(n, fired)
  {
    if fired == 0 {
      steps := Armed(n);
    } else {
      steps := AllDeferred(n, fired - 1);
      OneDeferred(n, fired);
      hide Legal, Run, Apply, Enabled, Full;
      RunMore(START, steps, Expire(fired - 1, false));
      steps := steps + [Expire(fired - 1, false)];
    }
  }

  // One is lost when every timer's event is deferred, one of them is cleared,
  // and the next to be armed runs out.
  lemma LossIsReachable() returns (steps: seq<Step>)
    ensures Legal(START, steps) && Run(START, steps).lost == {TimerTable.MAX_TIMERS}
  {
    var n := TimerTable.MAX_TIMERS;
    steps := AllDeferred(n, n);
    RoomForOne(Full(n, n));
    hide Legal, Run, Full, Enabled, Apply;
    RunMore(START, steps, Clear(0));
    steps := steps + [Clear(0)];
    RunMore(START, steps, Arm);
    steps := steps + [Arm];
    RunMore(START, steps, Expire(n, false));
    steps := steps + [Expire(n, false)];
  }

  lemma RoomForOne(s: Timers)
    requires s == Full(TimerTable.MAX_TIMERS, TimerTable.MAX_TIMERS)
    ensures Enabled(s, Clear(0)) && Enabled(Apply(s, Clear(0)), Arm)
    ensures var t := Apply(Apply(s, Clear(0)), Arm);
            && Enabled(t, Expire(s.next, false)) && Apply(t, Expire(s.next, false)).lost == {s.next}
            && s.next == TimerTable.MAX_TIMERS
  {
    hide First, UpTo;
    assert |s.armed - {0}| == |s.armed| - 1;
  }
}
