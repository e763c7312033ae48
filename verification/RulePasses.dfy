// The rule engine's walks over the rules: cascades under their two caps, the
// no-loop guard, and passes that the time budget's uncatchable interrupt cuts
// short and _after_interrupt() takes up again.
module RulePasses {
  import opened Collections
  import opened Options
  import opened RuleWalks

  class Engine {
    const rules: seq<Rule>
    // How a rule's conditions come out for a walk; false where the analog edge
    // is taken already.
    const matches: (nat, nat) -> bool
    // Whether the budget is over when it is looked at for the nth time.
    const over: nat -> bool
    // The facts that the nth piece of code writes: a condition, a step, a round of
    // feeding watchdogs or of trying waiting arms again.
    const code: nat -> seq<nat>
    var polls: nat
    var pieces: nat
    var passes: seq<Frame>
    var cascade: nat
    var cascadeTotal: nat
    var firing: seq<bool>             // each rule's _firing
    var interrupted: bool             // s_interrupted
    var nextWalk: nat                 // stands in for the objects' identities

    ghost var walks: Walks
    ghost var base: int               // passes on the stack when this call came in; one less without its own
    ghost var inside: seq<int>        // how many passes deep in its call each walk began
    ghost var running: set<nat>       // rules with an action or a delayed step running
    ghost var entries: seq<Entry>
    ghost var checked: set<Check>     // the walks' evaluations of rules
    ghost var landed: seq<Cut>        // the interrupts, by where they landed

    // What holds all the time, interrupts included, when stack is on _passes.
    ghost predicate ValidWith(stack: seq<Frame>, but: Option<Check>)
      reads this
    {
      && walks.keys.Keys == walks.taken.Keys && Seen(rules, walks, checked, but)
      && Sound(|rules|, stack, walks)
      && |firing| == |rules|
      && cascade <= CASCADE_CAP && cascadeTotal <= CASCADE_TOTAL_CAP
      && nextWalk == walks.made == |inside|
      && (forall k :: 0 <= k < |inside| ==> 0 <= inside[k] <= CASCADE_CAP)
      && (forall r :: 0 <= r < |rules| && r in running && rules[r].noLoop ==> firing[r])
      && Right(rules, matches, walks.keys, entries)
      && Once(entries, walks.taken)
      && |walks.lost| == Offs(landed)
    }

    ghost predicate Valid()
      reads this
    {
      ValidWith(passes, None)
    }

    // Within a call the depth counter is the real depth.
    ghost predicate Depth(slack: nat)
      reads this
    {
      |passes| == base + cascade + slack
    }

    // Rules that are not no-loop clear a flag nobody reads.
    twostate predicate SameGuards()
      reads this
    {
      && |old(firing)| == |firing| == |rules|
      && forall r :: 0 <= r < |rules| && rules[r].noLoop ==> firing[r] == old(firing[r])
    }

    // How a piece of a call leaves the engine: it has made extra more passes
    // than it counted, and entered actions only for own and new walks.
    // Not cut short, it has lost no walk and what was around it is as it was;
    // cut short, it has lost one of mine or a new one if that was off the
    // stack, and none otherwise.
    twostate predicate Left(cut: Cut, extra: nat, own: set<Own>, mine: set<nat>)
      reads this
    {
      && base == old(base) && old(cascadeTotal) <= cascadeTotal && interrupted == old(interrupted)
      && |old(entries)| <= |entries| && NewEntries(old(entries), entries, old(walks.made), own)
      && old(checked) <= checked && SameKeys(old(walks.keys), walks.keys)
      && walks.made == old(walks.made) + extra + cascadeTotal - old(cascadeTotal)
      && Losses(cut, old(walks), walks, mine) && landed == Landed(old(landed), cut)
      && (cut != No ==> running == {} && |passes| >= base)
      && (cut == No ==> cascade == old(cascade) && running == old(running) && SameGuards())
    }

    constructor (rules: seq<Rule>, matches: (nat, nat) -> bool, over: nat -> bool, code: nat -> seq<nat>)
      ensures Valid() && this.rules == rules && this.matches == matches && this.over == over && this.code == code
      ensures polls == pieces == 0
      ensures passes == [] && running == {} && entries == []
      ensures walks == Walks(map[], {}, {}, 0, map[]) && !interrupted && landed == []
    {
      this.rules, this.matches, this.over, this.code := rules, matches, over, code;
      polls, pieces := 0, 0;
      passes, cascade, cascadeTotal, interrupted, nextWalk := [], 0, 0, false, 0;
      firing := seq(|rules|, _ => false);
      walks, base, inside, running, entries := Walks(map[], {}, {}, 0, map[]), 0, [], {}, [];
      checked, landed := {}, [];
    }

    // The engine polls for the budget here: the interrupt unwinds everything.
    method Poll() returns (cut: Cut)
      modifies this`polls, this`running, this`landed
      ensures cut == (if over(old(polls)) then OnStack else No) && polls == old(polls) + 1
      ensures landed == Landed(old(landed), cut)
      ensures running == if cut == No then old(running) else {}
    {
      cut := if over(polls) then OnStack else No;
      polls := polls + 1;
      if cut != No { running, landed := {}, Landed(landed, cut); }
    }

    // The code of a condition or a step has begun, and its writes have been
    // emitted, or, cut short, the first of them.
    twostate predicate Wrote(cut: Cut)
      reads this
    {
      var run := |old(entries)|;
      && Began(old(entries), entries, [Coded(run, code(old(pieces)))])
      && Did(cut, [], Of(entries, run), WritesOf(code(old(pieces))))
    }

    // A condition or a step of a rule: code that writes some outputs and
    // facts, if the budget lets it.
    method UserCode() returns (cut: Cut)
      requires Valid() && Depth(1)
      modifies this
      ensures Valid() && Left(cut, 0, {}, {}) && (cut == No ==> passes == old(passes))
      ensures Wrote(cut)
      decreases CASCADE_TOTAL_CAP - cascadeTotal, 1
    {
      hide Sound, Once, NewEntries, Seen, Right, Did, Began, WritesOf, Of;
      ghost var run := |entries|;
      var writes := code(pieces);
      BeginCode();
      ghost var began, v := entries, walks;
      cut := WriteAll(writes, run);
      SinceBegun(old(entries), began, entries, v.made, Coded(run, writes));
      if cut != No { return; }
      DidIs(Of(entries, run), WritesOf(writes));
      cut := Poll();
      AllDid(cut, WritesOf(writes));
    }

    // The code's writes, one after the other.
    method WriteAll(writes: seq<nat>, ghost run: nat) returns (cut: Cut)
      requires Valid() && Depth(1) && run < |entries| && Of(entries, run) == []
      modifies this
      ensures Valid() && Left(cut, 0, {OfRun(run)}, {}) && (cut == No ==> passes == old(passes))
      ensures Did(cut, [], Of(entries, run), WritesOf(writes))
      decreases CASCADE_TOTAL_CAP - cascadeTotal, 0, 1
    {
      hide Sound, Once, NewEntries, Seen, Right, Did, Began, WritesOf, Of;
      NothingNew(entries, walks.made, {OfRun(run)});
      NothingWritten(writes);
      for i := 0 to |writes|
        invariant Valid() && Left(No, 0, {OfRun(run)}, {}) && passes == old(passes)
        invariant Of(entries, run) == WritesOf(writes[..i])
      {
        ghost var e, v := entries, walks;
        cut := Emit(writes[i], run);
        NewEntriesJoin(old(entries), e, entries, old(walks.made), v.made, {OfRun(run)});
        LossesJoin(cut, old(walks), v, walks, {});
        OneMoreWritten(cut, writes, i, Of(entries, run));
        if cut != No { return; }
      }
      AllWritten(writes, Of(entries, run));
      cut := No;
    }

    method BeginCode()
      requires Valid()
      modifies this`entries, this`pieces
      ensures Valid() && pieces == old(pieces) + 1
      ensures entries == old(entries) + [Coded(|old(entries)|, code(old(pieces)))]
      ensures NewEntries(old(entries), entries, walks.made, {}) && Of(entries, |old(entries)|) == []
    {
      ghost var e := Coded(|entries|, code(pieces));
      NewRun(rules, matches, walks.keys, entries);
      OneMoreDeed(entries, e, |entries|);
      Note(e);
      pieces := pieces + 1;
    }

    // Whether _emit() still makes a pass.
    predicate UnderCaps()
      reads this
    {
      cascade < CASCADE_CAP && cascadeTotal < CASCADE_TOTAL_CAP
    }

    // _emit(): under both caps a pass for the fact, which is served unless it
    // is cut short; at a cap nothing.
    method Emit(key: nat, ghost run: nat) returns (cut: Cut)
      requires Valid() && Depth(1) && run <= |entries|
      modifies this
      ensures Valid() && Left(cut, 0, {OfRun(run)}, {}) && (cut == No ==> passes == old(passes))
      ensures Of(entries, run) == Of(old(entries), run) + [Writes(key)]
      ensures old(UnderCaps()) ==>
                old(walks.made) < walks.made && old(walks.made) in walks.keys &&
                walks.keys[old(walks.made)] == Some(key)
      ensures old(UnderCaps()) && cut == No ==>
                Served(rules, matches, walks, checked, entries, old(firing), old(walks.made))
      ensures !old(UnderCaps()) ==>
                cut == No && walks == old(walks) && firing == old(firing) && |entries| == |old(entries)| + 1
      decreases CASCADE_TOTAL_CAP - cascadeTotal, 0, 0
    {
      hide Sound, Once, NewEntries, Seen, Right, Served, Of, Did, WritesOf;
      if cascade >= CASCADE_CAP || cascadeTotal >= CASCADE_TOTAL_CAP {
        ghost var e := Dropped(run, key, cascade, cascadeTotal);
        OneMoreDeed(entries, e, run);
        NothingLost(No, walks, walks, {});
        Note(e);
        Widen(old(entries), entries, walks.made, if run == |old(entries)| then {} else {OfRun(run)}, {OfRun(run)});
        return No;
      }
      cascade := cascade + 1;
      cascadeTotal := cascadeTotal + 1;
      cut := FireMatching(Some(key), Some(run));
      if cut != No { return; }              // the interrupt skips the finally
      cascade := cascade - 1;
    }

    // The pass that _fire_matching() makes for an event; writer: whose write it is
    // for, if it is for one.
    method FireMatching(key: Option<nat>, ghost writer: Option<nat>) returns (cut: Cut)
      requires Valid() && Depth(0) && (writer.Some? ==> writer.value <= |entries| && key.Some?)
      modifies this
      ensures Valid() && Left(cut, 1, OwnBy(writer), {}) && (cut == No ==> passes == old(passes))
      ensures walks.made > old(walks.made) && old(walks.made) in walks.keys && walks.keys[old(walks.made)] == key
      ensures cut == No ==> Served(rules, matches, walks, checked, entries, old(firing), old(walks.made))
      ensures over(old(polls)) ==> cut == OffStack && old(walks.made) in walks.lost && passes == old(passes)
      ensures writer.Some? ==> Of(entries, writer.value) == Of(old(entries), writer.value) + [Writes(key.value)]
      decreases CASCADE_TOTAL_CAP - cascadeTotal, 9
    {
      hide Sound, Once, Seen, Right, Acted, NewEntries, Losses, Served, Of, Did, WritesOf, OwnBy;
      var p := BeginPass(key, writer);
      ghost var e := entries;
      cut := Pass(p);
      LossesBegun(cut, old(walks), walks, key);
      FiredEntries(old(entries), e, entries, old(walks.made), writer);
      if cut == No {
        LostNone(old(walks), walks);
        WalkServed(old(walks), old(firing), p.id);
      }
    }

    // The walk, and, if it is for a write, the record of it.
    method BeginPass(key: Option<nat>, ghost writer: Option<nat>) returns (p: Frame)
      requires Valid() && Depth(0) && (writer.Some? ==> writer.value <= |entries| && key.Some?)
      modifies this`nextWalk, this`walks, this`inside, this`entries
      ensures ValidWith(passes + [p], None) && p == Frame(old(walks.made), key, 0)
      ensures walks == Begun(old(walks), key) && SameKeys(old(walks.keys), walks.keys)
      ensures NewEntries(old(entries), entries, old(walks.made) + 1, OwnBy(writer)) && |old(entries)| <= |entries|
      ensures writer.Some? ==>
                writer.value < |entries| &&
                Of(entries, writer.value) == Of(old(entries), writer.value) + [Writes(key.value)]
    {
      hide Sound, Once, NewEntries, Seen, Right, Of, OwnBy;
      p := NewWalk(key);
      NothingNew(entries, walks.made, OwnBy(writer));
      if writer.Some? {
        NoteEmitted(p, writer.value, key.value);
        assert OwnBy(Some(writer.value)) == OwnBy(writer);
      }
    }

    // The write is on record, with the walk it has.
    ghost method NoteEmitted(p: Frame, run: nat, key: nat)
      requires ValidWith(passes + [p], None) && run <= |entries| && p.id in walks.keys && walks.keys[p.id] == Some(key)
      modifies this`entries
      ensures ValidWith(passes + [p], None) && entries == old(entries) + [Emitted(run, key, p.id)]
      ensures NewEntries(old(entries), entries, walks.made, OwnBy(Some(run))) && |entries| == |old(entries)| + 1
      ensures Of(entries, run) == Of(old(entries), run) + [Writes(key)]
    {
      hide Sound, Once, NewEntries, Seen, Right, Of, Did, WritesOf;
      ghost var e := Emitted(run, key, p.id);
      OneMoreDeed(entries, e, run);
      EnterOnce(entries, walks.taken, e);
      RightMore(rules, matches, walks.keys, entries, e);
      OneNew(entries, e, walks.made);
      Widen(entries, entries + [e], walks.made, OwnOf(entries, e), {OfRun(run)});
      entries := entries + [e];
    }

    // A walk begun since, neither lost nor given up nor on the stack, is served.
    lemma WalkServed(v: Walks, flags: seq<bool>, id: nat)
      requires Valid() && Sound(|rules|, passes, v) && v.lost == walks.lost && v.givenUp == walks.givenUp
      requires v.made <= id < walks.made && id in walks.keys && |flags| == |rules|
      requires Acted(rules, matches, walks.keys, entries, flags, id, 0, |rules|)
      ensures Served(rules, matches, walks, checked, entries, flags, id)
    {
      NewWalksDone(|rules|, passes, v, walks);
      ThroughMeansSeen(rules, walks, checked, id);
      hide Sound, Once, Seen, Right, Acted, Of, Did, WritesOf;
    }

    method NewWalk(key: Option<nat>) returns (p: Frame)
      requires Valid() && Depth(0)
      modifies this`nextWalk, this`walks, this`inside
      ensures ValidWith(passes + [p], None) && p == Frame(old(walks.made), key, 0)
      ensures walks == Begun(old(walks), key) && SameKeys(old(walks.keys), walks.keys)
    {
      BeginSound(|rules|, passes, walks, key);
      BeginOnce(|rules|, passes, entries, walks, key);
      BeginSeen(passes, rules, walks, checked, key);
      RightBegun(rules, matches, walks.keys, entries, walks.made, key);
      hide Sound, Once, Seen, Right, Of, Did, WritesOf;
      p := Frame(nextWalk, key, 0);
      nextWalk := nextWalk + 1;
      walks := Begun(walks, key);
      inside := inside + [|passes| - base];
    }

    // _pass(): from the frame's next rule to the last.
    method Pass(p: Frame) returns (cut: Cut)
      requires ValidWith(passes + [p], None) && Depth(0)
      modifies this
      ensures Valid() && Left(cut, 0, {OfWalk(Some(p.id))}, {p.id}) && (cut == No ==> passes == old(passes))
      ensures cut == No ==> Acted(rules, matches, walks.keys, entries, old(firing), p.id, p.next, |rules|)
      ensures over(old(polls)) ==> cut == OffStack && p.id in walks.lost && passes == old(passes)
      decreases CASCADE_TOTAL_CAP - cascadeTotal, 8, 1
    {
      hide Sound, Once, NewEntries, Seen, Right, Acted, Of, Did, WritesOf;
      NothingNew(entries, walks.made, {OfWalk(Some(p.id))});
      FrameKnown(p);
      cut := Enter(p);
      if cut != No { return; }
      ghost var v := walks;
      cut := EveryRule(old(passes), p);
      LossesJoin(cut, old(walks), v, walks, {p.id});
      if cut != No { return; }
      Finish();
    }

    // The loop of _pass(); its exit, like each turn, may be where the
    // interrupt lands.
    method EveryRule(ghost below: seq<Frame>, ghost p: Frame) returns (cut: Cut)
      requires Valid() && passes == below + [p] && p.id in walks.keys && p.next <= |rules| && Depth(1)
      modifies this
      ensures Valid() && Left(cut, 0, {OfWalk(Some(p.id))}, {})
      ensures cut == No ==> passes == below + [p.(next := |rules|)]
      ensures cut == No ==> Acted(rules, matches, walks.keys, entries, old(firing), p.id, p.next, |rules|)
      decreases CASCADE_TOTAL_CAP - cascadeTotal, 8, 0
    {
      hide Sound, Once, NewEntries, Seen, Right, Acted, Fires, Offs, Of, Did, WritesOf;
      NothingNew(entries, walks.made, {OfWalk(Some(p.id))});
      NoneYet(rules, matches, walks.keys, entries, firing, p.id, p.next);
      ghost var n := p.next;
      while passes[|passes| - 1].next < |rules|
        invariant Valid() && Left(No, 0, {OfWalk(Some(p.id))}, {})
        invariant p.next <= n <= |rules| && passes == below + [p.(next := n)] && p.id in walks.keys
        invariant Acted(rules, matches, walks.keys, entries, old(firing), p.id, p.next, n)
        decreases |rules| - n
      {
        ghost var e, v := entries, walks;
        cut := OneTurn(below, p, n);
        NewEntriesJoin(old(entries), e, entries, old(walks.made), v.made, {OfWalk(Some(p.id))});
        LossesJoin(cut, old(walks), v, walks, {});
        if cut != No { return; }
        ActedMore(rules, matches, v.keys, walks.keys, e, entries, v.made, {OfWalk(Some(p.id))}, old(firing), p.id,
          p.next, n);
        OneMoreActed(rules, matches, walks.keys, entries, old(firing), p.id, p.next, n);
        n := n + 1;
      }
      cut := Poll();
    }

    // The interrupt may land at the back edge of the loop, too.
    method OneTurn(ghost below: seq<Frame>, ghost p: Frame, ghost n: nat) returns (cut: Cut)
      requires Valid() && passes == below + [p.(next := n)] && n < |rules| && Depth(1)
      modifies this
      ensures Valid() && Left(cut, 0, {OfWalk(Some(p.id))}, {})
      ensures cut == No ==> passes == below + [p.(next := n + 1)] && p.id in walks.keys
      ensures cut == No && Fires(rules, matches, walks.keys, p.id, n) && !(rules[n].noLoop && old(firing)[n])
              ==> HasActed(rules, entries, 0, Some(p.id), n)
      decreases CASCADE_TOTAL_CAP - cascadeTotal, 7, 1
    {
      hide Sound, Once, NewEntries, Seen, Right, Fires, HasActed, Offs, Of, Did, WritesOf;
      FrameOnTop(below, p.(next := n));
      NothingNew(entries, walks.made, {OfWalk(Some(p.id))});
      cut := Poll();
      if cut != No { return; }
      cut := NextRule();
    }

    lemma FrameOnTop(below: seq<Frame>, p: Frame)
      requires Valid() && passes == below + [p]
      ensures p.id in walks.keys
    {
      assert passes[|below|] == p;
    }

    lemma FrameKnown(p: Frame)
      requires ValidWith(passes + [p], None)
      ensures p.id in walks.keys && p.id < walks.made && p.next <= |rules|
    {
      var stack := passes + [p];
      assert stack[|passes|] == p;
    }

    // The push, unless an interrupt lands before it: that loses the walk.
    method Enter(p: Frame) returns (cut: Cut)
      requires ValidWith(passes + [p], None)
      modifies this`passes, this`polls, this`running, this`landed, this`walks
      ensures Valid() && walks.made == old(walks.made) && (cut == OffStack <==> over(old(polls)))
      ensures walks.keys == old(walks.keys) && landed == Landed(old(landed), cut)
      ensures cut == No ==> passes == old(passes) + [p] && running == old(running) && walks == old(walks)
      ensures cut != No ==> cut == OffStack && passes == old(passes) && running == {} && p.id in walks.lost
      ensures Losses(cut, old(walks), walks, {p.id})
    {
      hide Sound, Once, Seen, Right, Offs, Losses, Of, Did, WritesOf;
      NothingLost(No, walks, walks, {p.id});
      polls := polls + 1;
      if over(polls - 1) {
        Lose(p);
        running, cut := {}, OffStack;
      } else {
        passes, cut := passes + [p], No;
      }
    }

    ghost method Lose(p: Frame)
      requires ValidWith(passes + [p], None)
      modifies this`landed, this`walks
      ensures Valid() && walks.made == old(walks.made)
      ensures walks.keys == old(walks.keys) && landed == Landed(old(landed), OffStack)
      ensures Losses(OffStack, old(walks), walks, {p.id}) && p.id in walks.lost
    {
      assert (passes + [p])[..|passes|] == passes && (passes + [p])[|passes|] == p;
      LoseSound(|rules|, passes + [p], walks);
      ghost var lost := walks.(lost := walks.lost + {p.id});
      assert OneLost(walks, lost, p.id, {p.id});
      hide Sound, Once, Seen, Right, OneLost, Of, Did, WritesOf;
      assert |lost.lost| == |walks.lost| + 1;
      walks, landed := lost, Landed(landed, OffStack);
    }

    // The pass pops itself.
    method Finish()
      requires Valid() && passes != [] && passes[|passes| - 1].next >= |rules|
      modifies this`passes
      ensures Valid() && passes == old(passes)[..|old(passes)| - 1]
    {
      PopSound(|rules|, passes, walks);
      hide Sound, Once, Seen, Right, Of, Did, WritesOf;
      passes := passes[..|passes| - 1];
    }

    // One turn of the loop of _pass(): next moves on before its rule runs, and
    // a rule that fires is acted on, unless its no-loop flag is up.
    method NextRule() returns (cut: Cut)
      requires Valid() && passes != [] && passes[|passes| - 1].next < |rules| && Depth(1)
      modifies this
      ensures Valid() && Left(cut, 0, {OfWalk(Some(old(passes)[|old(passes)| - 1].id))}, {})
      ensures cut == No ==> passes == Advanced(old(passes))
      ensures var p := old(passes)[|old(passes)| - 1];
              cut == No && Fires(rules, matches, walks.keys, p.id, p.next) &&
              !(rules[p.next].noLoop && old(firing)[p.next])
              ==> HasActed(rules, entries, 0, Some(p.id), p.next)
      decreases CASCADE_TOTAL_CAP - cascadeTotal, 7, 0
    {
      hide Sound, Once, NotYet, NewEntries, Seen, Right, HasActed, Offs, Of, Did, WritesOf;
      var p := passes[|passes| - 1];
      NothingNew(entries, walks.made, {OfWalk(Some(p.id))});
      Take();
      var rule := rules[p.next];
      if p.key.Some? && !rule.wildcard && p.key.value !in rule.facts {
        NoNeed(rules, walks, checked, p.id, p.next);
        return No;
      }
      ghost var e, v := entries, walks;
      cut := Visit(p.next, p.id);
      NewEntriesJoin(old(entries), e, entries, old(walks.made), v.made, {OfWalk(Some(p.id))});
      LossesJoin(cut, old(walks), v, walks, {});
    }

    // A rule that listens: evaluated, and acted on if it fires.
    method Visit(r: nat, walk: nat) returns (cut: Cut)
      requires r < |rules| && ValidWith(passes, Some(Check(walk, r))) && NotYet(entries, walk, r) && Depth(1)
      requires passes != [] && passes[|passes| - 1] == Frame(walk, passes[|passes| - 1].key, r + 1)
      requires walk < walks.made && Listens(rules[r], passes[|passes| - 1].key)
      modifies this
      ensures Valid() && Left(cut, 0, {OfWalk(Some(walk))}, {}) && (cut == No ==> passes == old(passes))
      ensures cut == No && Fires(rules, matches, walks.keys, walk, r) && !(rules[r].noLoop && old(firing)[r])
              ==> HasActed(rules, entries, 0, Some(walk), r)
      decreases CASCADE_TOTAL_CAP - cascadeTotal, 6, 1
    {
      hide Sound, Once, NotYet, NewEntries, Seen, Right, HasActed, Offs, Of, Did, WritesOf;
      ghost var e0, v0 := entries, walks;
      cut := RuleMatches(r, walk);
      Widen(e0, entries, v0.made, {}, {OfWalk(Some(walk))});
      if cut != No { return; }
      StillNotYet(e0, entries, v0.made, walk, r);
      StillTaken(walk, r);
      ghost var e1, v1, f1, run1 := entries, walks, firing, running;
      cut := ApplyMatch(r, matches(walk, r), Some(walk));
      NewEntriesJoin(e0, e1, entries, v0.made, v1.made, {OfWalk(Some(walk))});
      LossesJoin(cut, v0, v1, walks, {});
      if cut == No && matches(walk, r) && !rules[r].heldFor && !(rules[r].noLoop && f1[r]) {
        ActsIsActed(rules, e1, entries, Some(walk), r, r in run1, 0);
      }
    }

    // _rule_matches(): the rule's conditions are evaluated for the walk.
    method RuleMatches(r: nat, ghost walk: nat) returns (cut: Cut)
      requires ValidWith(passes, Some(Check(walk, r))) && Depth(1)
      modifies this
      ensures Valid() && Left(cut, 0, {}, {}) && (cut == No ==> passes == old(passes))
      ensures Check(walk, r) in checked
      decreases CASCADE_TOTAL_CAP - cascadeTotal, 3
    {
      CheckSeen(rules, walks, checked, Check(walk, r));
      hide Sound, Once, NewEntries, Seen, Right, Of, Did, WritesOf;
      checked := checked + {Check(walk, r)};
      cut := UserCode();
    }

    // The walk on top has taken the rule before its next.
    lemma StillTaken(walk: nat, r: nat)
      requires Valid() && passes != [] && passes[|passes| - 1] == Frame(walk, passes[|passes| - 1].key, r + 1)
      ensures walk in walks.taken && r < |walks.taken[walk]|
      ensures walk in walks.keys && walks.keys[walk] == passes[|passes| - 1].key
    {
    }

    // _rules[p.next++]
    method Take()
      requires Valid() && passes != [] && passes[|passes| - 1].next < |rules|
      modifies this`passes, this`walks
      ensures var p := old(passes)[|old(passes)| - 1];
              && ValidWith(passes, Some(Check(p.id, p.next))) && NotYet(entries, p.id, p.next) && p.id < walks.made
              && p.id in walks.keys && walks.keys[p.id] == p.key
      ensures passes == Advanced(old(passes))
      ensures walks.lost == old(walks.lost) && walks.givenUp == old(walks.givenUp)
      ensures walks.made == old(walks.made) && walks.keys == old(walks.keys)
    {
      ghost var t := passes[|passes| - 1];
      TakeSound(|rules|, passes, walks);
      TakeOnce(entries, walks.taken, t.id, t.next);
      TakeSeen(rules, walks, checked, t.id, t.next);
      hide Accounted, Once, Seen, Advanced, Right;
      walks := Took(walks, t);
      passes := Advanced(passes);
    }

    // The rule's action is entered now, and, unless it is cut short, has run.
    twostate predicate Acts(r: nat, walk: Option<nat>, cut: Cut)
      reads this
    {
      var run := |old(entries)|;
      && r < |rules| && Began(old(entries), entries, [Entered(run, walk, r, r in old(running))])
      && Did(cut, [], Of(entries, run), Timeline(r, rules[r].delays, 0))
    }

    // _apply_match(): a heldFor() rule only arms its timer; clearing one lets
    // arms that wait for a timer check their own rules.
    method ApplyMatch(r: nat, matched: bool, ghost walk: Option<nat>) returns (cut: Cut)
      requires Valid() && Depth(1) && r < |rules| && (matched && !rules[r].heldFor ==> MayEnter(r, walk))
      modifies this
      ensures Valid() && Left(cut, 0, {OfWalk(walk)}, {}) && (cut == No ==> passes == old(passes))
      ensures matched && !rules[r].heldFor && !(rules[r].noLoop && old(firing)[r]) ==> Acts(r, walk, cut)
      decreases CASCADE_TOTAL_CAP - cascadeTotal, 6, 0
    {
      hide Sound, Once, NotYet, NewEntries, Seen, Right, Of, Did, WritesOf;
      NothingNew(entries, walks.made, {OfWalk(walk)});
      if matched {
        if rules[r].heldFor { cut := Poll(); } else { cut := RunAction(r, walk); }
      } else {
        cut := UserCode();
        Widen(old(entries), entries, old(walks.made), {}, {OfWalk(walk)});
      }
    }

    // The walk has just taken the rule, and it fires for it.
    ghost predicate MayEnter(r: nat, walk: Option<nat>)
      reads this
    {
      walk.Some? ==>
        && walk.value in walks.taken && r < |walks.taken[walk.value]| && NotYet(entries, walk.value, r)
        && Fires(rules, matches, walks.keys, walk.value, r)
    }

    // _run_action(): nothing for a no-loop rule that is firing, the action for
    // any other: its timeline as far as no step waits for a timer.
    method RunAction(r: nat, ghost walk: Option<nat>) returns (cut: Cut)
      requires Valid() && Depth(1) && r < |rules| && MayEnter(r, walk)
      modifies this
      ensures Valid() && Left(cut, 0, {OfWalk(walk)}, {}) && (cut == No ==> passes == old(passes))
      ensures if rules[r].noLoop && old(firing)[r] then cut == No && entries == old(entries) && walks == old(walks)
              else Acts(r, walk, cut)
      decreases CASCADE_TOTAL_CAP - cascadeTotal, 5
    {
      hide Sound, Once, NotYet, NewEntries, Seen, Right, Began, Losses, Offs, Timeline, Did, Of;
      NothingLost(No, walks, walks, {});
      NothingNew(entries, walks.made, {OfWalk(walk)});
      if rules[r].noLoop && firing[r] { return No; }
      ghost var was, run := running, |entries|;
      BeginAction(r, walk);
      ghost var e1, v1 := entries, walks;
      cut := RunSteps(r, 0, run);
      ActionEntries(old(entries), e1, entries, old(walks.made), v1.made, Entered(run, walk, r, r in was));
      if cut != No { return; }
      firing := firing[r := false];
      running := was;
    }

    method BeginAction(r: nat, ghost walk: Option<nat>)
      requires Valid() && r < |rules| && MayEnter(r, walk) && !(rules[r].noLoop && firing[r])
      modifies this`entries, this`firing, this`running
      ensures Valid() && NewEntries(old(entries), entries, walks.made, {OfWalk(walk)})
      ensures firing == old(firing)[r := true] && running == old(running) + {r}
      ensures entries == old(entries) + [Entered(|old(entries)|, walk, r, r in old(running))]
      ensures Began(old(entries), entries, [Entered(|old(entries)|, walk, r, r in old(running))])
      ensures Of(entries, |old(entries)|) == []
    {
      hide Sound, Once, NotYet, NewEntries, Seen, Right, Began, Of, Did, WritesOf;
      ghost var e := Entered(|entries|, walk, r, r in running);
      NewRun(rules, matches, walks.keys, entries);
      OneMoreDeed(entries, e, |entries|);
      EnterOnce(entries, walks.taken, e);
      RightMore(rules, matches, walks.keys, entries, e);
      OneNew(entries, e, walks.made);
      Widen(entries, entries + [e], walks.made, OwnOf(entries, e), {OfWalk(walk)});
      JustBegan(entries, e);
      entries := entries + [e];
      firing := firing[r := true];
      running := running + {r};
    }

    // A step's timer is armed, a step or its code begins, a write is dropped.
    ghost method Note(e: Entry)
      requires Valid() && !e.Entered? && EntryOk(rules, matches, walks.keys, e) && e.run <= |entries|
      modifies this`entries
      ensures Valid() && entries == old(entries) + [e]
      ensures NewEntries(old(entries), entries, walks.made, if e.run == |old(entries)| then {} else {OfRun(e.run)})
    {
      hide Sound, Once, NewEntries, Seen, Right, Of, Did, WritesOf;
      EnterOnce(entries, walks.taken, e);
      RightMore(rules, matches, walks.keys, entries, e);
      OneNew(entries, e, walks.made);
      Widen(entries, entries + [e], walks.made, OwnOf(entries, e), if e.run == |entries| then {} else {OfRun(e.run)});
      entries := entries + [e];
    }

    // What the run has done since.
    twostate predicate DidSince(cut: Cut, run: nat, deeds: seq<Deed>)
      reads this
    {
      Did(cut, Of(old(entries), run), Of(entries, run), deeds)
    }

    // _run_steps()
    method RunSteps(r: nat, i: nat, ghost run: nat) returns (cut: Cut)
      requires Valid() && Depth(1) && r < |rules| && i <= |rules[r].delays| && run <= |entries|
      modifies this
      ensures Valid() && Left(cut, 0, {OfRun(run)}, {}) && (cut == No ==> passes == old(passes))
      ensures DidSince(cut, run, Timeline(r, rules[r].delays, i))
      ensures i < |rules[r].delays| && rules[r].delays[i] ==>
                firing == old(firing) && walks == old(walks) && cascadeTotal == old(cascadeTotal)
                && (cut == No ==> |entries| == |old(entries)| + 1)
      decreases CASCADE_TOTAL_CAP - cascadeTotal, 4, |rules[r].delays| - i, 1
    {
      hide Sound, Once, NewEntries, Seen, Right, Began, FromStep, Of, Did, WritesOf;
      NothingNew(entries, walks.made, {OfRun(run)});
      if i >= |rules[r].delays| {
        DidNone(No, Of(entries, run), []);
        return No;
      }
      if rules[r].delays[i] {
        cut := Poll();
        if cut != No { DidNone(cut, Of(entries, run), [Arms(r, i)]); }
        if cut == No {
          ghost var e := Armed(run, r, i);
          OneMoreDeed(entries, e, run);
          DidOne(Of(entries, run), Arms(r, i));
          Note(e);
          Widen(old(entries), entries, walks.made, if run == |old(entries)| then {} else {OfRun(run)}, {OfRun(run)});
        }
      } else {
        cut := Go(r, i, run);
      }
    }

    // A step of the timeline, from its timer or from the step before it: a
    // delayed next step is armed before this one runs, and the others after it
    // run on.
    method Go(r: nat, i: nat, ghost run: nat) returns (cut: Cut)
      requires Valid() && Depth(1) && r < |rules| && i < |rules[r].delays| && run <= |entries|
      modifies this
      ensures Valid() && Left(cut, 0, {OfRun(run)}, {}) && (cut == No ==> passes == old(passes))
      ensures DidSince(cut, run, FromStep(r, rules[r].delays, i)) && (cut == No ==> |entries| > |old(entries)|)
      decreases CASCADE_TOTAL_CAP - cascadeTotal, 4, |rules[r].delays| - i, 0, 1
    {
      hide Sound, Once, NewEntries, Seen, Right, Began, Losses, Offs, NextDelayed, FromStep, Timeline, Did, Of;
      ghost var lead, rest := Parts(rules[r], r, i);
      var armedNext := NextDelayed(rules[r], i);
      cut := ArmNext(r, i, run);
      if cut != No { DidCut(cut, Of(old(entries), run), Of(entries, run), lead, [Runs(r, i)] + rest); return; }
      ghost var e1, v1 := entries, walks;
      cut := Step(r, i, run);
      NewEntriesJoin(old(entries), e1, entries, old(walks.made), v1.made, {OfRun(run)});
      LossesJoin(cut, old(walks), v1, walks, {});
      StepDid(cut, Of(old(entries), run), Of(e1, run), Of(entries, run), lead, Runs(r, i), rest);
      if cut != No { return; }
      ghost var e2, v2 := entries, walks;
      cut := RunOn(r, i, armedNext, run);
      NewEntriesJoin(old(entries), e2, entries, old(walks.made), v2.made, {OfRun(run)});
      LossesJoin(cut, old(walks), v2, walks, {});
      RestDid(cut, Of(old(entries), run), Of(e2, run), Of(entries, run), lead, Runs(r, i), rest);
    }

    // The timer of a delayed next step, if there is one.
    method ArmNext(r: nat, i: nat, ghost run: nat) returns (cut: Cut)
      requires Valid() && Depth(1) && r < |rules| && i < |rules[r].delays| && run <= |entries|
      modifies this
      ensures Valid() && Left(cut, 0, {OfRun(run)}, {}) && (cut == No ==> passes == old(passes))
      ensures firing == old(firing) && walks == old(walks) && cascadeTotal == old(cascadeTotal)
      ensures DidSince(cut, run, if NextDelayed(rules[r], i) then [Arms(r, i + 1)] else [])
      decreases CASCADE_TOTAL_CAP - cascadeTotal, 4, |rules[r].delays| - i, 0, 0
    {
      hide Sound, Once, NewEntries, Seen, Right, FromStep, Of, Did, WritesOf;
      NothingNew(entries, walks.made, {OfRun(run)});
      DidNone(No, Of(entries, run), []);
      if NextDelayed(rules[r], i) { cut := RunSteps(r, i + 1, run); } else { cut := No; }
    }

    // The rest of the timeline, unless its timer was armed before.
    method RunOn(r: nat, i: nat, armedNext: bool, ghost run: nat) returns (cut: Cut)
      requires Valid() && Depth(1) && r < |rules| && i < |rules[r].delays| && run <= |entries|
      modifies this
      ensures Valid() && Left(cut, 0, {OfRun(run)}, {}) && (cut == No ==> passes == old(passes))
      ensures DidSince(cut, run, if armedNext then [] else Timeline(r, rules[r].delays, i + 1))
      decreases CASCADE_TOTAL_CAP - cascadeTotal, 4, |rules[r].delays| - i, 0, 0
    {
      hide Sound, Once, NewEntries, Seen, Right, Timeline, Of, Did, WritesOf;
      NothingNew(entries, walks.made, {OfRun(run)});
      DidNone(No, Of(entries, run), []);
      if armedNext { cut := No; } else { cut := RunSteps(r, i + 1, run); }
    }

    // The step itself: a no-loop rule's delayed step takes the guard. Its code
    // runs then, and writes what it writes.
    method Step(r: nat, i: nat, ghost run: nat) returns (cut: Cut)
      requires Valid() && Depth(1) && r < |rules| && run <= |entries|
      modifies this
      ensures Valid() && Left(cut, 0, {OfRun(run)}, {}) && (cut == No ==> passes == old(passes))
      ensures Began(old(entries), entries, [Ran(run, r, i, rules[r].noLoop || old(firing)[r])])
      ensures |entries| > |old(entries)|
      ensures Of(entries, run) == Of(old(entries), run) + [Runs(r, i)]
      ensures Did(cut, [], Of(entries, |old(entries)| + 1), WritesOf(code(old(pieces))))
      decreases CASCADE_TOTAL_CAP - cascadeTotal, 2
    {
      hide Sound, Once, NewEntries, Seen, Right, Began, Losses, SameKeys, Offs, Did, Of;
      var guarded := rules[r].noLoop && !firing[r];
      ghost var was := running;
      BeginStep(r, i, run, guarded);
      ghost var e1, v1 := entries, walks;
      cut := UserCode();
      StepEntries(old(entries), e1, entries, old(walks.made), v1.made, e1[|old(entries)|]);
      if cut != No { return; }
      if guarded { firing := firing[r := false]; }
      running := was;
    }

    method BeginStep(r: nat, i: nat, ghost run: nat, guarded: bool)
      requires Valid() && r < |rules| && run <= |entries| && guarded == (rules[r].noLoop && !firing[r])
      modifies this`entries, this`firing, this`running
      ensures Valid() && firing == (if guarded then old(firing)[r := true] else old(firing))
      ensures running == old(running) + {r}
      ensures entries == old(entries) + [Ran(run, r, i, rules[r].noLoop || old(firing)[r])]
      ensures Began(old(entries), entries, [Ran(run, r, i, rules[r].noLoop || old(firing)[r])])
      ensures NewEntries(old(entries), entries, walks.made, {OfRun(run)})
      ensures Of(entries, run) == Of(old(entries), run) + [Runs(r, i)]
    {
      hide Sound, Once, NewEntries, Seen, Right, Began, Of, Did, WritesOf;
      if guarded { firing := firing[r := true]; }
      running := running + {r};
      ghost var e := Ran(run, r, i, firing[r]);
      OneMoreDeed(entries, e, run);
      JustBegan(entries, e);
      Note(e);
      Widen(old(entries), entries, walks.made, if run == |old(entries)| then {} else {OfRun(run)}, {OfRun(run)});
    }

    // ---------------------------------------------------- calls by the host

    // depth: whether what comes next is in a pass of its own, or as if in one.
    method ResetCascade(ghost depth: nat)
      modifies this`cascade, this`cascadeTotal, this`base
      ensures cascade == cascadeTotal == 0 && Depth(depth)
    {
      cascade, cascadeTotal, base := 0, 0, |passes| - depth;
    }

    // How a call by the host leaves the engine: cut short or not, nothing is
    // given up, and a walk is lost only if it was off the stack then -- one
    // that had taken no rule yet.
    twostate predicate Returned(cut: Cut)
      reads this
    {
      && Valid() && running == {} && interrupted == old(interrupted) && old(walks.made) <= walks.made
      && Losses(cut, old(walks), walks, {}) && landed == Landed(old(landed), cut)
      && Later(old(entries), old(walks.keys), entries, walks.keys)
      && (cut == No ==> passes == old(passes) && SameGuards())
    }

    // Main result: a root event ends, having made at most 256 cascade passes
    // nested at most 16 deep, and all that were asked for within these bounds,
    // however its rules' conditions and actions write;
    // not cut short, each of its passes has taken every rule, and its own has
    // acted on every rule that fires, but for a no-loop rule whose flag is up.
    method RootEvent(key: Option<nat>) returns (cut: Cut)
      requires Valid() && running == {}
      modifies this
      ensures Returned(cut)
      ensures walks.made == old(walks.made) + 1 + cascadeTotal && cascadeTotal <= 256
      ensures forall k :: old(walks.made) <= k < walks.made ==> 0 <= inside[k] <= 16
      ensures old(walks.made) in walks.keys && walks.keys[old(walks.made)] == key
      ensures cut == No ==> Served(rules, matches, walks, checked, entries, old(firing), old(walks.made))
      ensures cut == No ==> forall k :: old(walks.made) <= k < walks.made ==>
                k in walks.taken && walks.taken[k] == UpTo(|rules|)
      ensures cut == No && old(GuardsDown()) ==> ActedAll(rules, matches, walks.keys, entries, old(walks.made))
      ensures over(old(polls)) ==> cut == OffStack && old(walks.made) in walks.lost && passes == old(passes)
    {
      hide Sound, Once, NewEntries, Seen, Right, Served, Later, ActedAll, Of, Did, WritesOf;
      ResetCascade(0);
      cut := FireMatching(key, None);
      NewIsLater(old(entries), entries, old(walks.keys), walks.keys, old(walks.made), {});
      if cut != No { return; }
      NewWalksDone(|rules|, passes, old(walks), walks);
      if old(GuardsDown()) { ActedMeans(rules, matches, walks, checked, entries, old(firing), old(walks.made)); }
    }

    // A watchdog's timer: the change is emitted, and no cap is in its way.
    method RootExpired(key: nat) returns (cut: Cut)
      requires Valid() && running == {}
      modifies this
      ensures Returned(cut)
      ensures old(walks.made) < walks.made && old(walks.made) in walks.keys && walks.keys[old(walks.made)] == Some(key)
      ensures cut == No && old(GuardsDown()) ==> ActedAll(rules, matches, walks.keys, entries, old(walks.made))
      ensures cut == No ==> OnePiece(entries, |old(entries)|)
    {
      hide Sound, Once, NewEntries, Seen, Right, Served, Later, ActedAll, Of, Did, WritesOf, OnePiece;
      ResetCascade(1);
      cut := Emit(key, |entries|);
      OwnRunIsNew(old(entries), entries, old(walks.made));
      NewIsLater(old(entries), entries, old(walks.keys), walks.keys, old(walks.made), {});
      if cut != No { return; }
      if old(GuardsDown()) { ActedMeans(rules, matches, walks, checked, entries, old(firing), old(walks.made)); }
      ghost var e, v := entries, walks;
      cut := Waiting();
      LossesJoin(cut, old(walks), v, walks, {});
      LaterStill(old(entries), e, entries, old(walks.keys), v.keys, walks.keys);
      KeyStays(e, entries, v.keys, walks.keys, old(walks.made));
      if cut == No && old(GuardsDown()) { ActedLater(rules, matches, e, entries, v.keys, walks.keys, old(walks.made)); }
      NoFewer(old(entries), e, old(walks.keys), v.keys);
      if cut == No { PieceMore(e, entries, v.keys, walks.keys, |old(entries)|); }
    }

    // _retry_arms(), first or last thing in a call: the rules of waiting
    // heldFor() arms are checked, with what is left of the budget.
    method Waiting() returns (cut: Cut)
      requires Valid() && running == {}
      modifies this
      ensures Returned(cut) && (cut == No ==> OnePiece(entries, |old(entries)|))
    {
      hide Sound, Once, NewEntries, Seen, Right, Later, Of, Did, WritesOf;
      base := |passes| - cascade - 1;
      cut := UserCode();
      if cut == No { PieceIsAt(old(entries), entries, code(old(pieces))); }
      NewIsLater(old(entries), entries, old(walks.keys), walks.keys, old(walks.made), {});
    }

    // _on_activity(), and the stale() feeds of _on_mqtt(): watchdogs are fed,
    // and each that was expired emits.
    method Activity() returns (cut: Cut)
      requires Valid() && running == {}
      modifies this
      ensures Returned(cut) && (cut == No ==> TwoPieces(entries, |old(entries)|))
    {
      hide Sound, Once, NewEntries, Seen, Right, Later, Of, Did, WritesOf, PieceAt, TwoPieces;
      cut := Waiting();
      if cut != No { return; }
      ResetCascade(1);
      ghost var e, v, n := entries, walks, pieces;
      cut := UserCode();
      NewIsLater(e, entries, v.keys, walks.keys, v.made, {});
      LaterStill(old(entries), e, entries, old(walks.keys), v.keys, walks.keys);
      LossesJoin(cut, old(walks), v, walks, {});
      if cut == No {
        PieceIsAt(e, entries, code(n));
        NoFewer(old(entries), e, old(walks.keys), v.keys);
        PieceMore(e, entries, v.keys, walks.keys, |old(entries)|);
      }
    }

    // A timer's callback: a delayed step of a rule, and those after it.
    method RootStep(r: nat, i: nat) returns (cut: Cut)
      requires Valid() && running == {} && r < |rules| && i < |rules[r].delays|
      modifies this
      ensures Returned(cut)
      ensures Did(cut, [], Of(entries, |old(entries)|), FromStep(r, rules[r].delays, i))
      ensures cut == No ==> |entries| > |old(entries)| && OnePiece(entries, |old(entries)|)
    {
      hide Sound, Once, NewEntries, Seen, Right, Did, FromStep, Later, Of, OnePiece, WritesOf;
      cut := TimedStep(r, i);
      if cut != No { return; }
      ghost var e, v := entries, walks;
      cut := Waiting();
      LaterStill(old(entries), e, entries, old(walks.keys), v.keys, walks.keys);
      LossesJoin(cut, old(walks), v, walks, {});
      RunIsOver(e, entries, v.keys, walks.keys, |old(entries)|);
      DidAll(cut, [], Of(entries, |old(entries)|), FromStep(r, rules[r].delays, i));
      NoFewer(e, entries, v.keys, walks.keys);
      if cut == No { PieceMore(e, entries, v.keys, walks.keys, |old(entries)|); }
    }

    // The step as a run of its own.
    method TimedStep(r: nat, i: nat) returns (cut: Cut)
      requires Valid() && running == {} && r < |rules| && i < |rules[r].delays|
      modifies this
      ensures Returned(cut)
      ensures Did(cut, [], Of(entries, |old(entries)|), FromStep(r, rules[r].delays, i))
      ensures cut == No ==> |entries| > |old(entries)|
    {
      hide Sound, Once, NewEntries, Seen, Right, Did, FromStep, Later, Of;
      NewRun(rules, matches, walks.keys, entries);
      ResetCascade(1);
      cut := Go(r, i, |entries|);
      OwnRunIsNew(old(entries), entries, old(walks.made));
      NewIsLater(old(entries), entries, old(walks.keys), walks.keys, old(walks.made), {});
    }

    // A timer's callback: _held_elapsed(). The action runs if the conditions
    // still hold.
    method RootHeld(r: nat, matched: bool) returns (cut: Cut)
      requires Valid() && running == {} && r < |rules|
      modifies this
      ensures Returned(cut)
      ensures cut == No && matched && !(rules[r].noLoop && old(firing)[r]) ==>
                HasActed(rules, entries, |old(entries)|, None, r)
      ensures cut == No ==> OnePiece(entries, |old(entries)|)
    {
      hide Sound, Once, NewEntries, Seen, Right, HasActed, Later, Of, Did, WritesOf, OnePiece;
      cut := Checked();
      if cut != No { return; }
      ghost var e, v := entries, walks;
      if matched {
        cut := RunAction(r, None);
        NewIsLater(e, entries, v.keys, walks.keys, v.made, {OfWalk(None)});
        LaterStill(old(entries), e, entries, old(walks.keys), v.keys, walks.keys);
        LossesJoin(cut, old(walks), v, walks, {});
        if cut != No { return; }
        if !(rules[r].noLoop && old(firing)[r]) {
          NoFewer(old(entries), e, old(walks.keys), v.keys);
          ActsIsActed(rules, e, entries, None, r, false, |old(entries)|);
        }
      }
      ghost var e', v' := entries, walks;
      cut := Waiting();
      LaterStill(old(entries), e', entries, old(walks.keys), v'.keys, walks.keys);
      LossesJoin(cut, old(walks), v', walks, {});
      if matched && !(rules[r].noLoop && old(firing)[r]) {
        LaterActed(rules, e', entries, v'.keys, walks.keys, |old(entries)|, None, r);
      }
      NoFewer(old(entries), e', old(walks.keys), v'.keys);
      if cut == No { PieceMore(e', entries, v'.keys, walks.keys, |old(entries)|); }
    }

    // _rule_matches() of a rule whose held period is over.
    method Checked() returns (cut: Cut)
      requires Valid() && running == {}
      modifies this
      ensures Returned(cut) && (cut == No ==> Depth(1))
    {
      hide Sound, Once, NewEntries, Seen, Right, Later, Of, Did, WritesOf;
      ResetCascade(1);
      cut := UserCode();
      NewIsLater(old(entries), entries, old(walks.keys), walks.keys, old(walks.made), {});
    }

    // _after_interrupt(): resuming, it gives up nothing; completed, no walk is
    // left unfinished. Cut short itself, it loses at most the one walk that was
    // off the stack: one taken up again, with what it had taken, or a new one.
    method AfterInterrupt(resume: bool) returns (cut: Cut)
      requires Valid() && running == {}
      modifies this
      ensures Valid() && running == {} && interrupted == old(interrupted) && landed == Landed(old(landed), cut)
      ensures old(walks.made) <= walks.made && Later(old(entries), old(walks.keys), entries, walks.keys)
      ensures cut == No ==> passes == [] && AllThrough(|rules|, walks) && GuardsDown()
      ensures cut != OffStack ==> walks.lost == old(walks.lost)
      ensures cut == OffStack ==> exists id :: OneLost(old(walks), walks, id, IdsOf(old(passes)))
      ensures resume ==> walks.givenUp == old(walks.givenUp)
      ensures cut == No && !resume ==> walks.givenUp == old(walks.givenUp) + IdsOf(old(passes))
    {
      hide Sound, Once, NewEntries, AllThrough, Seen, Right, OneLost, Offs, Later, IdsOf, Of, Did, WritesOf;
      NothingLater(entries, walks.keys);
      cut := Poll();
      if cut == No { cut := TakeUp(resume); }
      if cut == No { cut := ClearAgain(); }
    }

    // Its end: the flags once more, and the time triggers' timers.
    method ClearAgain() returns (cut: Cut)
      requires Valid() && running == {} && passes == []
      modifies this`cascade, this`cascadeTotal, this`base, this`firing, this`polls, this`running, this`landed
      ensures Valid() && running == {} && landed == Landed(old(landed), cut) && cut != OffStack
      ensures AllThrough(|rules|, walks) && GuardsDown()
    {
      EmptyMeansThrough(|rules|, walks);
      hide Sound, Once, AllThrough, Seen, Right, Offs;
      Clear();
      cut := Poll();
    }

    // The flags are cleared, and the passes taken up again, or dropped.
    method TakeUp(resume: bool) returns (cut: Cut)
      requires Valid() && running == {}
      modifies this
      ensures Valid() && running == {} && interrupted == old(interrupted) && landed == Landed(old(landed), cut)
      ensures old(walks.made) <= walks.made && Later(old(entries), old(walks.keys), entries, walks.keys)
      ensures cut == No ==> passes == []
      ensures cut != OffStack ==> walks.lost == old(walks.lost)
      ensures cut == OffStack ==> exists id :: OneLost(old(walks), walks, id, IdsOf(old(passes)))
      ensures walks.givenUp == old(walks.givenUp) + (if resume then {} else IdsOf(old(passes)))
    {
      hide Sound, Once, NewEntries, AllThrough, Seen, Right, OneLost, Offs, Later, IdsOf, Of, Did, WritesOf;
      Clear();
      if !resume { GiveUp(); }
      ghost var s, v := passes, walks;
      cut := ResumeAll();
      if cut == OffStack { LostSince(|rules|, old(passes), old(walks), s, v, walks); }
    }

    // No no-loop rule's flag is up.
    predicate GuardsDown()
      reads this
    {
      |firing| == |rules| && forall r :: 0 <= r < |rules| && rules[r].noLoop ==> !firing[r]
    }

    method Clear()
      requires Valid() && running == {}
      modifies this`cascade, this`cascadeTotal, this`base, this`firing
      ensures Valid() && GuardsDown()
    {
      hide Sound, Once, Seen, Right, Of, Did, WritesOf;
      ResetCascade(0);
      firing := seq(|rules|, _ => false);
    }

    // What is left of the passes is dropped.
    method GiveUp()
      requires Valid()
      modifies this`passes, this`walks
      ensures Valid() && passes == []
      ensures walks == old(walks).(givenUp := old(walks).givenUp + IdsOf(old(passes)))
    {
      AllGivenUp(|rules|, passes, walks);
      hide Sound, Once, Seen, Right, Of, Did, WritesOf;
      walks := walks.(givenUp := walks.givenUp + IdsOf(passes));
      passes := [];
    }

    // The passes cut short go on, innermost first.
    method ResumeAll() returns (cut: Cut)
      requires Valid() && running == {}
      modifies this
      ensures Valid() && running == {} && interrupted == old(interrupted) && walks.givenUp == old(walks.givenUp)
      ensures landed == Landed(old(landed), cut)
      ensures old(walks.made) <= walks.made && Later(old(entries), old(walks.keys), entries, walks.keys)
      ensures cut == No ==> passes == []
      ensures cut != OffStack ==> walks.lost == old(walks.lost)
      ensures cut == OffStack ==> exists id :: OneLost(old(walks), walks, id, IdsOf(old(passes)))
    {
      hide Sound, Once, NewEntries, Seen, Right, Acted, OneLost, Later, IdsOf, Of, Did, WritesOf;
      NothingLater(entries, walks.keys);
      while passes != []
        invariant Valid() && running == {} && interrupted == old(interrupted) && landed == old(landed)
        invariant walks.lost == old(walks.lost) && walks.givenUp == old(walks.givenUp) && old(walks.made) <= walks.made
        invariant Later(old(entries), old(walks.keys), entries, walks.keys)
        invariant |passes| <= |old(passes)| && passes == old(passes)[..|passes|]
        decreases |passes|
      {
        TakenStays(|rules|, old(passes), old(walks), passes, walks, |passes| - 1, |passes| - 1);
        ghost var e, v, i := entries, walks, |passes| - 1;
        cut := Resume();
        LaterStill(old(entries), e, entries, old(walks.keys), v.keys, walks.keys);
        if cut == OffStack { LostResumed(|rules|, old(passes), old(walks), v, walks, i); }
        if cut != No { return; }
      }
      return No;
    }

    // The innermost pass goes on, from its next rule.
    method Resume() returns (cut: Cut)
      requires Valid() && running == {} && passes != []
      modifies this
      ensures Valid() && running == {} && interrupted == old(interrupted) && landed == Landed(old(landed), cut)
      ensures old(walks.made) <= walks.made && Later(old(entries), old(walks.keys), entries, walks.keys)
      ensures Losses(cut, old(walks), walks, {old(passes)[|old(passes)| - 1].id})
      ensures cut == No ==> passes == old(passes)[..|old(passes)| - 1]
    {
      hide Sound, Once, NewEntries, Seen, Right, Acted, Later, Of, Did, WritesOf;
      var p := PopPass();
      cut := Pass(p);
      NewIsLater(old(entries), entries, old(walks.keys), walks.keys, old(walks.made), {OfWalk(Some(p.id))});
    }

    // _passes.pop()
    method PopPass() returns (p: Frame)
      requires Valid() && passes != []
      modifies this`passes, this`base
      ensures ValidWith(passes + [p], None) && Depth(0)
      ensures p == old(passes)[|old(passes)| - 1] && passes == old(passes)[..|old(passes)| - 1]
    {
      hide Sound, Once, Seen, Right, Of;
      p := passes[|passes| - 1];
      assert passes[..|passes| - 1] + [p] == passes;
      passes := passes[..|passes| - 1];
      base := |passes| - cascade;
    }

    // Lost walks are those of interrupts that found one off the stack.
    twostate predicate LostIfOff()
      reads this
    {
      && |old(landed)| <= |landed| && Offs(old(landed)) <= Offs(landed)
      && (Offs(landed) == Offs(old(landed)) ==> walks.lost == old(walks.lost))
    }

    // recover_interrupt(): up to three tries that resume, and one that does
    // not; another only if the one before was cut short.
    method Recover()
      requires Settled()
      modifies this
      ensures Settled() && LostIfOff() && |landed| - |old(landed)| <= RESUME_TRIES + 1
      ensures old(walks.made) <= walks.made && Later(old(entries), old(walks.keys), entries, walks.keys)
      ensures !old(interrupted) ==> landed == old(landed) && passes == old(passes)
      ensures interrupted <==> old(interrupted) && |landed| - |old(landed)| == RESUME_TRIES + 1
      ensures |landed| - |old(landed)| < RESUME_TRIES ==> walks.givenUp == old(walks.givenUp)
    {
      hide Sound, Once, AllThrough, Seen, Right, OneLost, Later, Of, Did, WritesOf;
      NothingLater(entries, walks.keys);
      ghost var n := |landed|;
      var i := 0;
      while interrupted && i <= RESUME_TRIES
        invariant Settled() && LostIfOff() && i <= RESUME_TRIES + 1 && old(walks.made) <= walks.made
        invariant Later(old(entries), old(walks.keys), entries, walks.keys)
        invariant i == 0 ==> interrupted == old(interrupted) && landed == old(landed) && passes == old(passes)
        invariant i > 0 ==> old(interrupted)
        invariant |landed| - n == if i > 0 && !interrupted then i - 1 else i
        invariant |landed| - n < RESUME_TRIES ==> walks.givenUp == old(walks.givenUp)
      {
        interrupted := false;
        ghost var e, v := entries, walks;
        var cut := AfterInterrupt(i < RESUME_TRIES);
        LaterStill(old(entries), e, entries, old(walks.keys), v.keys, walks.keys);
        interrupted := cut != No;
        i := i + 1;
      }
    }

    // Between calls: unless an interrupt is still to be recovered from, no
    // pass is left over and no no-loop flag is up.
    ghost predicate Settled()
      reads this
    {
      Valid() && running == {} && (!interrupted ==> passes == [] && GuardsDown())
    }

    // One turn of the host's loop: what is left of an interrupt is recovered
    // from, then the call comes in.
    method Turn(call: Call) returns (ghost t: Trace)
      requires Settled()
      modifies this
      ensures Settled() && LostIfOff() && TraceOk(rules, matches, walks, entries, call, t)
      ensures old(walks.made) <= walks.made && Later(old(entries), old(walks.keys), entries, walks.keys)
      ensures t.root.Some? ==> old(walks.made) <= t.root.value
      ensures |landed| == |old(landed)| + t.tries + if t.cut == No then 0 else 1
      ensures t.tries < RESUME_TRIES ==> walks.givenUp == old(walks.givenUp)
    {
      hide Sound, Once, Seen, Right, OneLost, Later, ActedAll, Fires, AllThrough, Of, Did, WritesOf;
      Recover();
      ghost var e, v, n, settled := entries, walks, |landed|, GuardsDown();
      var cut;
      ghost var root;
      cut, root := OneCall(call);
      LaterStill(old(entries), e, entries, old(walks.keys), v.keys, walks.keys);
      if cut == No {
        CallDoneLess(rules, entries, call, |e|, settled, n - |old(landed)| <= RESUME_TRIES);
      }
      NoFewer(e, entries, v.keys, walks.keys);
      t := Trace(n - |old(landed)|, cut, root, |e|);
      interrupted := interrupted || cut != No;
    }

    // Main result: whatever calls come in, in whatever order, and wherever the
    // budget cuts them and their resumptions short -- every walk takes the
    // rules in order and none twice, an action is entered only by a walk its
    // rule fires for and never twice by the same one, and a no-loop rule's
    // never while an action or a delayed step of that rule runs. As many walks
    // are lost as interrupts found one off the stack, and none is given up
    // unless a recovery was cut short three times; all others have, once
    // recovered, taken every rule, and had those that listen to their fact
    // evaluated. A call that was not cut short has had its own event's walk.
    method AnyCalls(calls: seq<Call>) returns (ghost traces: seq<Trace>, ghost lastTries: nat)
      requires Settled()
      modifies this
      ensures Settled() && LostIfOff() && |walks.lost| == Offs(landed)
      ensures |traces| == |calls| && |landed| == |old(landed)| + Interrupts(traces) + lastTries
      ensures RootsApart(traces) && AllOk(rules, matches, walks, entries, calls, traces)
      ensures NoLastTry(traces) && lastTries < RESUME_TRIES ==> walks.givenUp == old(walks.givenUp) && !interrupted
      ensures forall id :: id in walks.taken ==> InOrder(|rules|, walks.taken[id])
      ensures NoneTwice()
      ensures forall k :: 0 <= k < |entries| ==> EntryOk(rules, matches, walks.keys, entries[k])
      ensures !interrupted ==> AllThrough(|rules|, walks) && AllSeen()
    {
      traces := Turns(calls);
      ghost var e, v, n := entries, walks, |landed|;
      Recover();
      lastTries := |landed| - n;
      AllLater(rules, matches, v, e, walks, entries, calls, traces);
      if !interrupted { Afterwards(); }
      Always();
      hide Sound, Once, Seen, Right, OneLost, AllThrough, AllSeen, InOrder, EntryOk, Later, AllOk, Of, Did, WritesOf;
    }

    method Turns(calls: seq<Call>) returns (ghost traces: seq<Trace>)
      requires Settled()
      modifies this
      ensures Settled() && LostIfOff()
      ensures |traces| == |calls| && |landed| == |old(landed)| + Interrupts(traces)
      ensures RootsApart(traces) && AllOk(rules, matches, walks, entries, calls, traces)
      ensures NoLastTry(traces) ==> walks.givenUp == old(walks.givenUp)
    {
      traces := [];
      assert RootsApart(traces) && AllOk(rules, matches, walks, entries, calls, traces);
      hide Sound, Once, Seen, Right, Later, AllThrough, RootsApart, AllOk, NoLastTry, Of, Did, WritesOf;
      for n := 0 to |calls|
        invariant Settled() && LostIfOff()
        invariant |traces| == n && |landed| == |old(landed)| + Interrupts(traces)
        invariant RootsApart(traces) && AllOk(rules, matches, walks, entries, calls, traces)
        invariant NoLastTry(traces) ==> walks.givenUp == old(walks.givenUp)
      {
        ghost var e, v := entries, walks;
        ghost var t := Turn(calls[n]);
        RootsBelow(rules, matches, v, e, calls, traces);
        OneMoreTrace(traces, t, v.made);
        OneMoreCounted(traces, t);
        AllLater(rules, matches, v, e, walks, entries, calls, traces);
        OneMoreOk(rules, matches, walks, entries, calls, traces, t);
        if NoLastTry(traces + [t]) { OneMoreTry(traces, t); }
        traces := traces + [t];
      }
    }

    // No action is entered twice by the same walk.
    ghost predicate NoneTwice()
      reads this
    {
      forall k, l :: 0 <= k < l < |entries| && SameWalk(entries[k], entries[l]) ==> entries[k].rule != entries[l].rule
    }

    lemma Always()
      requires Valid()
      ensures forall id :: id in walks.taken ==> InOrder(|rules|, walks.taken[id])
      ensures NoneTwice()
      ensures forall k :: 0 <= k < |entries| ==> EntryOk(rules, matches, walks.keys, entries[k])
    {
    }

    // Every rule that listens to a walk's fact was evaluated for it, unless the
    // walk was lost or given up.
    ghost predicate AllSeen()
      reads this
    {
      forall id: nat, r: nat ::
        id in walks.keys && id !in walks.lost && id !in walks.givenUp &&
        r < |rules| && Listens(rules[r], walks.keys[id]) ==>
          Check(id, r) in checked
    }

    lemma Afterwards()
      requires Valid() && passes == []
      ensures AllThrough(|rules|, walks) && AllSeen()
    {
      EmptyMeansThrough(|rules|, walks);
      forall id | id in walks.keys && id !in walks.lost && id !in walks.givenUp
        ensures forall r: nat :: r < |rules| && Listens(rules[r], walks.keys[id]) ==> Check(id, r) in checked
      {
        ThroughMeansSeen(rules, walks, checked, id);
      }
    }

    // _on_input(), _on_analog() and _on_mqtt(): waiting arms are tried and
    // watchdogs fed before the event has its walk.
    method EventAfter(fed: bool, key: Option<nat>) returns (cut: Cut, ghost root: Option<nat>)
      requires Valid() && running == {}
      modifies this
      ensures Returned(cut) && (cut == No ==> root.Some?)
      ensures root.Some? ==>
                old(walks.made) <= root.value < walks.made && root.value in walks.keys && walks.keys[root.value] == key
      ensures root.Some? && cut == No && old(GuardsDown()) ==> ActedAll(rules, matches, walks.keys, entries, root.value)
      ensures cut == No ==> OnePiece(entries, |old(entries)|) && (fed ==> TwoPieces(entries, |old(entries)|))
    {
      hide Sound, Once, Seen, Right, Later, ActedAll, Served, Of, Did, WritesOf, OnePiece, TwoPieces;
      root := None;
      if fed { cut := Activity(); } else { cut := Waiting(); }
      if cut != No { return; }
      if fed { TwoAreOne(entries, |old(entries)|); }
      ghost var e, v := entries, walks;
      cut := RootEvent(key);
      root := Some(v.made);
      LossesJoin(cut, old(walks), v, walks, {});
      LaterStill(old(entries), e, entries, old(walks.keys), v.keys, walks.keys);
      PiecesStay(e, entries, v.keys, walks.keys, |old(entries)|);
    }

    // The timer of every() or cron().
    method Ticked(key: Option<nat>) returns (cut: Cut)
      requires Valid() && running == {}
      modifies this
      ensures Returned(cut)
      ensures old(walks.made) < walks.made && old(walks.made) in walks.keys && walks.keys[old(walks.made)] == key
      ensures cut == No && old(GuardsDown()) ==> ActedAll(rules, matches, walks.keys, entries, old(walks.made))
      ensures cut == No ==> OnePiece(entries, |old(entries)|)
    {
      hide Sound, Once, Seen, Right, Later, ActedAll, Served, Of, Did, WritesOf, OnePiece;
      cut := RootEvent(key);
      if cut != No { return; }
      ghost var e, v := entries, walks;
      cut := Waiting();
      LossesJoin(cut, old(walks), v, walks, {});
      LaterStill(old(entries), e, entries, old(walks.keys), v.keys, walks.keys);
      KeyStays(e, entries, v.keys, walks.keys, old(walks.made));
      if cut == No && old(GuardsDown()) { ActedLater(rules, matches, e, entries, v.keys, walks.keys, old(walks.made)); }
      NoFewer(old(entries), e, old(walks.keys), v.keys);
      if cut == No { PieceMore(e, entries, v.keys, walks.keys, |old(entries)|); }
    }

    // A call. Its event's walk is made unless it is cut short before, by the
    // condition of a waiting arm or a fed watchdog's cascade.
    method OneCall(call: Call) returns (cut: Cut, ghost root: Option<nat>)
      requires Valid() && running == {}
      modifies this
      ensures Returned(cut)
      ensures root.Some? ==> old(walks.made) <= root.value < walks.made && root.value in walks.keys
      ensures root.Some? ==> RootKey(call).Some? && walks.keys[root.value] == RootKey(call).value
      ensures RootKey(call).Some? && (cut == No || call.Tick? || call.Expired?) ==> root.Some?
      ensures root.Some? && cut == No && old(GuardsDown()) ==> ActedAll(rules, matches, walks.keys, entries, root.value)
      ensures cut == No ==> CallDone(rules, entries, call, |old(entries)|, old(GuardsDown()))
    {
      hide Sound, Once, Seen, Right, NewEntries, HasActed, Began, Later, ActedAll, FromStep, Of, Did, WritesOf,
        OnePiece, TwoPieces;
      NothingLost(No, walks, walks, {});
      NothingLater(entries, walks.keys);
      cut, root := No, None;
      match call {
        case Event(key) => cut, root := EventAfter(false, key);
        case Message(topic) => cut, root := EventAfter(true, Some(topic));
        case Activity =>
          cut := Activity();
          if cut == No { TwoAreOne(entries, |old(entries)|); }
        case Tick(key) => cut := Ticked(key); root := Some(old(walks.made));
        case Expired(fact) => cut := RootExpired(fact); root := Some(old(walks.made));
        case DelayedStep(r, i) =>
          if r < |rules| && i < |rules[r].delays| {
            cut := RootStep(r, i);
            if cut == No { DidIs(Of(entries, |old(entries)|), FromStep(r, rules[r].delays, i)); }
          }
        case HeldElapsed(r, matched) => if r < |rules| { cut := RootHeld(r, matched); }
      }
    }
  }

  // A run that loses a walk: the budget is over before the first event's pass is
  // pushed. Nothing is left on _passes that could be taken up again.
  method LosesAWalk(rules: seq<Rule>, matches: (nat, nat) -> bool, over: nat -> bool,
          code: nat -> seq<nat>, key: Option<nat>)
    returns (e: Engine, cut: Cut)
    requires over(0)
    ensures fresh(e) && e.rules == rules && cut == OffStack
    ensures 0 in e.walks.lost && e.passes == [] && 0 in e.walks.keys && e.walks.keys[0] == key
  {
    e := new Engine(rules, matches, over, code);
    cut := e.RootEvent(key);
  }
}
