// The input drivers as they are written: loops over the channels under the
// input lock. Each pass is a run of the steps that the event plumbing allows
// the drivers, one report at a time.
module Inputs {
  import opened RuleEvents

  // n, one step at a time, from where steps have led.
  lemma OneMoreStep(s: Sys, steps: seq<Step>, x: Step)
    requires Legal(s, steps) && Enabled(Run(s, steps), x)
    ensures Legal(s, steps + [x]) && Run(s, steps + [x]) == Apply(Run(s, steps), x)
  {
    assert (steps + [x])[..|steps|] == steps;
  }

  // What a driver does for a level it has stored.
  function Reported(s: Sys, ch: nat): seq<Step> {
    if Room(s) then [SendReport] else [SendReport, FlagLost]
  }

  // Storing a level and reporting it, as one.
  function Told(s: Sys, ch: nat, v: bool): Sys {
    var t := Sent(s.(level := s.level[ch := v]), Input(ch, v));
    if Room(s) then t else t.(lost := s.lost + {ch})
  }

  // The three steps it takes.
  lemma TellingSteps(s: Sys, ch: nat, v: bool)
    requires s.report == Silent && ch in s.level
    ensures Enabled(s, Change(ch, v)) && Enabled(Apply(s, Change(ch, v)), SendReport)
    ensures var w := Apply(Apply(s, Change(ch, v)), SendReport);
            if Room(s) then w == Told(s, ch, v) else Enabled(w, FlagLost) && Apply(w, FlagLost) == Told(s, ch, v)
  {
  }

  lemma ToldIsARun(s: Sys, steps: seq<Step>, ch: nat, v: bool)
    requires Legal(s, steps) && Run(s, steps).report == Silent && ch in Run(s, steps).level
    ensures var t := Run(s, steps); var more := steps + [Change(ch, v)] + Reported(t, ch);
            Legal(s, more) && Run(s, more) == Told(t, ch, v)
  {
    hide Legal, Run, Apply, Enabled, Told;
    var t := Run(s, steps);
    var a := steps + [Change(ch, v)];
    TellingSteps(t, ch, v);
    OneMoreStep(s, steps, Change(ch, v));
    OneMoreStep(s, a, SendReport);
    if !Room(t) {
      OneMoreStep(s, a + [SendReport], FlagLost);
      assert a + [SendReport] + [FlagLost] == a + [SendReport, FlagLost];
    }
  }

  class Driver {
    const count: nat
    var level: map<nat, bool>        // s_state[]
    var last: nat
    var queue: seq<Event>
    var lost: set<nat>

    ghost predicate Valid()
      reads this
    {
      forall ch :: ch in level <==> 0 <= ch < count
    }

    // The whole system, when nobody is reporting; the engine's part is rest's.
    ghost function Whole(rest: Sys): Sys
      reads this
    {
      rest.(last := last, queue := queue, level := level, lost := lost, report := Silent)
    }

    constructor (count: nat, level: map<nat, bool>)
      requires forall ch :: ch in level <==> 0 <= ch < count
      ensures Valid() && this.count == count && Whole(Init(level)) == Init(level)
    {
      this.count, this.level := count, level;
      last, queue, lost := 0, [], {};
    }

    // scripting_on_input_change(), for the level just stored.
    method Deliver(ch: nat, v: bool, ghost rest: Sys)
      requires Valid() && ch < count
      modifies this`level, this`last, this`queue, this`lost
      ensures Valid() && Whole(rest) == Told(old(Whole(rest)), ch, v)
    {
      level := level[ch := v];
      last := last + 1;
      if |queue| < QUEUE_DEPTH {
        queue := queue + [Event(last, Input(ch, v))];
      } else {
        lost := lost + {ch};
      }
    }

    // One channel's new level, stored and reported, adds to the run so far.
    method Tell(ch: nat, v: bool, ghost rest: Sys, ghost s: Sys, ghost steps: seq<Step>) returns (ghost more: seq<Step>)
      requires Valid() && ch < count && Legal(s, steps) && Run(s, steps) == Whole(rest)
      modifies this`level, this`last, this`queue, this`lost
      ensures Valid() && level == old(level)[ch := v] && last == old(last) + 1
      ensures lost == old(lost) || lost == old(lost) + {ch}
      ensures Legal(s, more) && Run(s, more) == Whole(rest)
    {
      hide Legal, Run;
      ToldIsARun(s, steps, ch, v);
      more := steps + [Change(ch, v)] + Reported(Whole(rest), ch);
      Deliver(ch, v, rest);
    }

    // di_scan(): every level that has moved is stored and reported at once, in
    // channel order.
    method Scan(pins: seq<bool>, ghost rest: Sys) returns (ghost steps: seq<Step>)
      requires Valid() && |pins| == count
      modifies this`level, this`last, this`queue, this`lost
      ensures Valid() && forall ch :: 0 <= ch < count ==> level[ch] == pins[ch]
      ensures Legal(old(Whole(rest)), steps) && Run(old(Whole(rest)), steps) == Whole(rest)
      ensures old(lost) <= lost && forall ch :: ch in lost && ch !in old(lost) ==>
                0 <= ch < count && old(level)[ch] != pins[ch]
      ensures last - old(last) == Moved(old(level), pins, count)
    {
      steps := [];
      ghost var s := Whole(rest);
      ghost var was := level;
      NoStepsYet(s);
      hide Legal, Run, Whole;
      for i := 0 to count
        invariant Valid() && forall ch :: 0 <= ch < count ==> level[ch] == if ch < i then pins[ch] else was[ch]
        invariant Legal(s, steps) && Run(s, steps) == Whole(rest)
        invariant old(lost) <= lost && forall ch :: ch in lost && ch !in old(lost) ==>
                    0 <= ch < i && was[ch] != pins[ch]
        invariant last - old(last) == Moved(was, pins, i)
      {
        var cur := pins[i];
        if cur != level[i] { steps := Tell(i, cur, rest, s, steps); }
      }
    }

    // di_publish_all(): every level is read again, stored and reported.
    method PublishAll(pins: seq<bool>, ghost rest: Sys) returns (ghost steps: seq<Step>)
      requires Valid() && |pins| == count
      modifies this`level, this`last, this`queue, this`lost
      ensures Valid() && forall ch :: 0 <= ch < count ==> level[ch] == pins[ch]
      ensures Legal(old(Whole(rest)), steps) && Run(old(Whole(rest)), steps) == Whole(rest)
      ensures last == old(last) + count
    {
      steps := [];
      ghost var s := Whole(rest);
      NoStepsYet(s);
      hide Legal, Run, Whole;
      for i := 0 to count
        invariant Valid() && forall ch :: 0 <= ch < i ==> level[ch] == pins[ch]
        invariant Legal(s, steps) && Run(s, steps) == Whole(rest)
        invariant last == old(last) + i
      {
        steps := Tell(i, pins[i], rest, s, steps);
      }
    }
  }

  lemma NoStepsYet(s: Sys)
    ensures Legal(s, []) && Run(s, []) == s
  {
  }

  // How many channels below n have moved.
  function Moved(level: map<nat, bool>, pins: seq<bool>, n: nat): nat
    requires n <= |pins| && forall ch :: 0 <= ch < n ==> ch in level
  {
    if n == 0 then 0 else Moved(level, pins, n - 1) + if level[n - 1] != pins[n - 1] then 1 else 0
  }
}
